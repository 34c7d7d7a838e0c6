/** The failure text of a run: when replay gives back what the run row says. */
module FailureText {
  import opened Prelude
  import opened Workflow
  import opened History
  import opened Engine
  import opened Reducer
  import opened Invariant
  import opened Chronicle
  import opened Commands
  import opened Tracking
  import opened Settled
  import opened CommandProofs
  import opened CancelProofs
  import opened Tables
  import opened Runs
  import opened System
  import opened Operations
  import opened Summaries
  import opened Footprint
  import opened Steps
  import opened Histories

  /** The failure text that the history itself records: a failed run's, or why it is compensating, unless it is being
      cancelled. */
  function RecordedFailure(events: seq<Event>): Option<string> {
    if |events| == 0 then None
    else
      var init := events[..|events| - 1];
      match events[|events| - 1].payload
      case RunFailed(error) => Some(error)
      case RunCompensating(reason) => if CancelledBy(init) then RecordedFailure(init) else Some(reason)
      case _ => RecordedFailure(init)
  }

  predicate FailureMatches(def: Definition, run: RunRecord, events: seq<Event>) {
    Replay(def, run, events).Ok? && Replay(def, run, events).value.run.failure == run.failure
  }

  lemma {:induction false} FoldCancels(s: RunState, events: seq<Event>)
    requires Fold(s, events).Ok?
    ensures Fold(s, events).value.core.cancelRequested <==> s.core.cancelRequested || CancelledBy(events)
  {
    hide ApplyCore, ApplyRun;
    if events != [] {
      var init, e := events[..|events| - 1], events[|events| - 1];
      FoldCancels(s, init);
      EventCancels(Fold(s, init).value.core, e);
      assert forall i :: 0 <= i < |init| ==> events[i] == init[i];
    }
  }

  /** Replay takes the failure text from the events, and only in their absence from the stored record. */
  lemma {:induction false} ReplayedFailure(def: Definition, run: RunRecord, events: seq<Event>)
    requires Replay(def, run, events).Ok?
    ensures Replay(def, run, events).value.run.failure == RecordedFailure(events).GetOr(run.failure)
  {
    hide ApplyCore, CancelledBy;
    if events != [] {
      var init := events[..|events| - 1];
      ReplayedFailure(def, run, init);
      FoldCancels(Initial(def, run), init);
    }
  }

  // ------------------------------------------------------------------ what commands do to the text

  /** The state of the work is that of its events: nothing was set that no event records. */
  predicate Unedited(s: RunState, w: Work) {
    Fold(s, w.events) == Ok(w.state)
  }

  lemma EmitUnedited(s: RunState, env: Env, w: Work, stepId: StepId, taskId: Option<TaskId>, payload: Payload)
    requires Unedited(s, w) && Emit(env, w, stepId, taskId, payload).Ok?
    ensures Unedited(s, Emit(env, w, stepId, taskId, payload).value)
  {
    hide ApplyCore, ApplyRun;
    FoldSnoc(s, w.events, Event(env.runId, w.next, stepId, taskId, payload, env.now));
  }

  lemma ScheduleUnedited(s: RunState, env: Env, w: Work, step: Step, phase: TaskPhase)
    requires Unedited(s, w) && Schedule(env, w, step, phase).Ok?
    ensures Unedited(s, Schedule(env, w, step, phase).value)
  {
    var task := NewTask(env, w.state.core.outputs, step, phase, env.Id(w.next));
    hide NewTask, Emit, Fold, ScheduledPayload;
    EmitUnedited(s, env, w, step.id, Some(task.id), ScheduledPayload(task));
  }

  lemma {:induction false} ReadyUnedited(s: RunState, env: Env, w: Work, list: seq<StepId>)
    requires Unedited(s, w) && ScheduleForwardReady(env, w, list).Ok?
    ensures Unedited(s, ScheduleForwardReady(env, w, list).value)
  {
    hide Unedited, Schedule, Ready;
    if list != [] {
      var init, x := list[..|list| - 1], list[|list| - 1];
      ReadyUnedited(s, env, w, init);
      var w1 := ScheduleForwardReady(env, w, init).value;
      if Ready(w1.state.core, x) { ScheduleUnedited(s, env, w1, w1.state.core.steps[x].definition, Forward); }
    }
  }

  lemma FinishUnedited(s: RunState, env: Env, w: Work)
    requires Unedited(s, w) && FinishWithoutCompensation(env, w).Ok?
    ensures Unedited(s, FinishWithoutCompensation(env, w).value)
  {
    hide Unedited, Emit;
    EmitUnedited(s, env, w, "", None, FinishEvent(env, w).payload);
  }

  lemma CompensationUnedited(s: RunState, env: Env, w: Work, x: StepId)
    requires Unedited(s, w) && ScheduleCompensation(env, w, x).Ok?
    ensures Unedited(s, ScheduleCompensation(env, w, x).value)
  {
    hide Unedited, Schedule;
    ScheduleUnedited(s, env, w, CompensationStep(w.state.core.steps[x].definition), Compensation);
  }

  lemma AdvanceUnedited(s: RunState, env: Env, w: Work)
    requires Unedited(s, w) && AdvanceCompensation(env, w).Ok?
    ensures Unedited(s, AdvanceCompensation(env, w).value)
  {
    hide Unedited, ScheduleCompensation, FinishWithoutCompensation, NextCompensation, HasOpen;
    if !HasOpen(w.state.core, Compensation) {
      match NextCompensation(w.state.core)
      case Some(x) => CompensationUnedited(s, env, w, x);
      case None => FinishUnedited(s, env, w);
    }
  }

  lemma BeginUnedited(s: RunState, env: Env, w: Work)
    requires Unedited(s, w) && BeginCompensationOrFinish(env, w).Ok?
    ensures Unedited(s, BeginCompensationOrFinish(env, w).value)
  {
    hide Unedited, Emit, ScheduleCompensation, FinishWithoutCompensation, NextCompensation;
    match NextCompensation(w.state.core)
    case Some(x) =>
      var reason := if w.state.core.cancelRequested then w.state.run.cancelReason else w.state.run.failure;
      EmitUnedited(s, env, w, "", None, RunCompensating(reason));
      CompensationUnedited(s, env, Emit(env, w, "", None, RunCompensating(reason)).value, x);
    case None => FinishUnedited(s, env, w);
  }

  lemma PostProcessUnedited(s: RunState, env: Env, order: seq<StepId>, w: Work)
    requires Unedited(s, w) && PostProcess(env, order, w).Ok?
    ensures Unedited(s, PostProcess(env, order, w).value)
  {
    hide Unedited, Emit, AdvanceCompensation, ScheduleForwardReady, HasOpen, AllForwardCompleted, RunOutput;
    if w.state.core.compensating {
      AdvanceUnedited(s, env, w);
    } else {
      ReadyUnedited(s, env, w, order);
      var w1 := ScheduleForwardReady(env, w, order).value;
      if AllForwardCompleted(order, w1.state.core) && !HasOpen(w1.state.core, Forward) {
        EmitUnedited(s, env, w1, "", None, RunCompleted(RunOutput(w1.state.core)));
      }
    }
  }

  lemma UpdateUnedited(s: RunState, env: Env, ld: Loaded, w: Work, stepId: StepId, id: TaskId, payload: Payload)
    requires Unedited(s, w) && EmitAndUpdate(env, ld, w, stepId, id, payload).Ok?
    ensures Unedited(s, EmitAndUpdate(env, ld, w, stepId, id, payload).value)
  {
    hide Emit, Fold, UpdateOf;
    EmitUnedited(s, env, w, stepId, Some(id), payload);
  }

  lemma {:induction false} CancelTasksUnedited(s: RunState, env: Env, ld: Loaded, w: Work, list: seq<TaskId>,
                                               reason: string)
    requires Unedited(s, w) && CancelTasks(env, ld, w, list, reason).Ok?
    ensures Unedited(s, CancelTasks(env, ld, w, list, reason).value)
  {
    hide Unedited, EmitAndUpdate, Row;
    if list != [] {
      var init, id := list[..|list| - 1], list[|list| - 1];
      CancelTasksUnedited(s, env, ld, w, init, reason);
      var w1 := CancelTasks(env, ld, w, init, reason).value;
      if id in w1.state.core.tasks && w1.state.core.tasks[id].status.Open() {
        UpdateUnedited(s, env, ld, w1, Row(ld, id).stepId, id,
                       TaskCancelled(id, Row(ld, id).stepId, reason, w1.state.core.tasks[id].phase.Compensation?));
      }
    }
  }

  lemma BeginningUnedited(ld: Loaded)
    ensures Unedited(ld.state, Begin(ld))
  {
  }

  lemma CompleteUnedited(env: Env, ld: Loaded, worker: string, id: TaskId, output: Json)
    requires id in ld.state.core.tasks && CompleteWork(env, ld, worker, id, output).Ok?
    ensures Unedited(ld.state, CompleteWork(env, ld, worker, id, output).value)
  {
    hide Unedited, EmitAndUpdate, PostProcess;
    var t := ld.state.core.tasks[id];
    var payload := TaskCompleted(id, t.stepId, worker, NormalizeJson(output), t.phase.Compensation?);
    BeginningUnedited(ld);
    UpdateUnedited(ld.state, env, ld, Begin(ld), t.stepId, id, payload);
    PostProcessUnedited(ld.state, env, ld.def.order, EmitAndUpdate(env, ld, Begin(ld), t.stepId, id, payload).value);
  }

  lemma FireUnedited(env: Env, ld: Loaded, id: TaskId)
    requires id in ld.state.core.tasks && FireWork(env, ld, id).Ok?
    ensures Unedited(ld.state, FireWork(env, ld, id).value)
  {
    hide Unedited, EmitAndUpdate, PostProcess;
    var stepId := ld.state.core.tasks[id].stepId;
    BeginningUnedited(ld);
    UpdateUnedited(ld.state, env, ld, Begin(ld), stepId, id, TimerFired(id, stepId));
    PostProcessUnedited(ld.state, env, ld.def.order,
                        EmitAndUpdate(env, ld, Begin(ld), stepId, id, TimerFired(id, stepId)).value);
  }

  lemma CancelUnedited(env: Env, ld: Loaded, reason: string)
    requires CancelWork(env, ld, reason).Ok?
    ensures Unedited(ld.state, CancelWork(env, ld, reason).value)
  {
    hide Unedited, Emit, CancelTasks, BeginCompensationOrFinish;
    BeginningUnedited(ld);
    EmitUnedited(ld.state, env, Begin(ld), "", None, RunCancelRequested(reason));
    var w := Emit(env, Begin(ld), "", None, RunCancelRequested(reason)).value;
    CancelTasksUnedited(ld.state, env, ld, w, ld.listing, reason);
    BeginUnedited(ld.state, env, CancelTasks(env, ld, w, ld.listing, reason).value);
  }

  lemma FailUnedited(env: Env, ld: Loaded, worker: string, id: TaskId, error: string)
    requires id in ld.state.core.tasks && FailEvent(env, ld, worker, id, error).Ok?
    ensures Unedited(ld.state, FailEvent(env, ld, worker, id, error).value)
  {
    hide Unedited, Emit;
    var t := ld.state.core.tasks[id];
    BeginningUnedited(ld);
    EmitUnedited(ld.state, env, Begin(ld), t.stepId, Some(id),
                 TaskFailed(id, t.stepId, worker, error, t.phase.Compensation?));
  }

  lemma RetryUnedited(s: RunState, env: Env, ld: Loaded, w: Work, id: TaskId, error: string)
    requires id in ld.state.core.tasks && ld.state.core.tasks[id].stepId in ld.def.steps
    requires Unedited(s, w) && RetryWork(env, ld, w, id, error).Ok?
    ensures Unedited(s, RetryWork(env, ld, w, id, error).value)
  {
    hide Emit, BackoffForAttempt, Fold;
    var t := ld.state.core.tasks[id];
    var nextAt := env.now + BackoffForAttempt(ld.def.steps[t.stepId].retry.Normalize(), t.attempt);
    EmitUnedited(s, env, w, t.stepId, Some(id), TaskRetryScheduled(id, t.stepId, t.attempt + 1, nextAt, error));
  }

  // ------------------------------------------------------------------ the failure that is set by hand

  function WithFailure(w: Work, mutations: seq<Mutation>, failure: string): Work {
    w.(state := w.state.(run := w.state.run.(failure := failure)), mutations := mutations)
  }

  /** The event that follows records it, as long as nobody has asked to cancel the run. */
  lemma RecordedWhenNotCancelled(s: RunState, env: Env, w: Work, mutations: seq<Mutation>, failure: string,
                                 payload: Payload)
    requires Unedited(s, w) && !w.state.core.cancelRequested
    requires payload == RunCompensating(failure) || payload == RunFailed(failure)
    requires Emit(env, WithFailure(w, mutations, failure), "", None, payload).Ok?
    ensures Unedited(s, Emit(env, WithFailure(w, mutations, failure), "", None, payload).value)
  {
    hide ApplyCore;
    FoldSnoc(s, w.events, Event(env.runId, w.next, "", None, payload, env.now));
  }

  lemma RecordedBegin(s: RunState, env: Env, w: Work, mutations: seq<Mutation>, failure: string)
    requires Unedited(s, w) && !w.state.core.cancelRequested
    requires BeginCompensationOrFinish(env, WithFailure(w, mutations, failure)).Ok?
    ensures Unedited(s, BeginCompensationOrFinish(env, WithFailure(w, mutations, failure)).value)
  {
    hide Unedited, Emit, ScheduleCompensation, NextCompensation;
    var w1 := WithFailure(w, mutations, failure);
    match NextCompensation(w1.state.core)
    case Some(x) =>
      RecordedWhenNotCancelled(s, env, w, mutations, failure, RunCompensating(failure));
      CompensationUnedited(s, env, Emit(env, w1, "", None, RunCompensating(failure)).value, x);
    case None =>
      RecordedWhenNotCancelled(s, env, w, mutations, failure, RunFailed(failure));
  }

  /** In a run that is being cancelled, no later event records a failure, and the text that was set stays set. */
  lemma UnrecordedBegin(env: Env, w: Work)
    requires w.state.core.cancelRequested && BeginCompensationOrFinish(env, w).Ok?
    ensures var w' := BeginCompensationOrFinish(env, w).value;
            && w'.state.run.failure == w.state.run.failure && w.events <= w'.events
            && (forall i :: |w.events| <= i < |w'.events| ==> !w'.events[i].payload.RunFailed?)
  {
    hide ApplyCore, NextCompensation, NewTask;
  }

  lemma {:induction false} NothingRecorded(events: seq<Event>, more: seq<Event>)
    requires CancelledBy(events) && forall i :: 0 <= i < |more| ==> !more[i].payload.RunFailed?
    ensures RecordedFailure(events + more) == RecordedFailure(events)
  {
    if more == [] {
      assert events + more == events;
    } else {
      var init := more[..|more| - 1];
      NothingRecorded(events, init);
      assert (events + more)[..|events + more| - 1] == events + init;
      assert CancelledBy(events + init) by {
        var i :| 0 <= i < |events| && events[i].payload.RunCancelRequested?;
        assert (events + init)[i] == events[i];
      }
      hide CancelledBy;
    }
  }

  // ------------------------------------------------------------------ the exact condition

  /** What the history records of the failure, if anything, is what the row says. */
  predicate TextAgrees(events: seq<Event>, failure: string) {
    RecordedFailure(events).None? || RecordedFailure(events).value == failure
  }

  lemma MatchesMeansAgrees(def: Definition, run: RunRecord, events: seq<Event>)
    requires Replay(def, run, events).Ok?
    ensures FailureMatches(def, run, events) <==> TextAgrees(events, run.failure)
  {
    hide Replay;
    ReplayedFailure(def, run, events);
  }

  lemma UneditedAgrees(ld: Loaded, w: Work)
    requires Replay(ld.def, ld.run, ld.events) == Ok(ld.state) && Unedited(ld.state, w)
    ensures TextAgrees(ld.events + w.events, w.state.run.failure)
  {
    hide Fold, RecordedFailure;
    FoldConcat(Initial(ld.def, ld.run), ld.events, w.events);
    ReplayedFailure(ld.def, ld.run, ld.events + w.events);
  }

  /** A compensation fails for good in a run that is being cancelled, after a different failure had been recorded. */
  predicate LosesFailure(ld: Loaded, req: Request) {
    && req.FailRequest? && LeaseCheck(ld, req.worker, req.task).None?
    && ld.state.core.cancelRequested
    && RecordedFailure(ld.events).Some?
    && RecordedFailure(ld.events).value != CompensationFailure(ld.state.core.tasks[req.task].stepId, req.error)
  }

  lemma FinalFailureText(env: Env, ld: Loaded, worker: string, id: TaskId, error: string, retryable: bool)
    requires LoadedOk(env, ld) && LeaseCheck(ld, worker, id).None? && ld.state.core.tasks[id].kind.Activity?
    requires Replay(ld.def, ld.run, ld.events) == Ok(ld.state)
    requires FailEvent(env, ld, worker, id, error).Ok?
    requires FinalFailureWork(env, ld, FailEvent(env, ld, worker, id, error).value, id, error).Ok?
    ensures var w := FinalFailureWork(env, ld, FailEvent(env, ld, worker, id, error).value, id, error).value;
            TextAgrees(ld.events + w.events, w.state.run.failure) <==>
              !LosesFailure(ld, FailRequest(worker, id, error, retryable))
    ensures ld.state.core.cancelRequested ==>
              RecordedFailure(ld.events + FinalFailureWork(env, ld, FailEvent(env, ld, worker, id, error).value, id,
                                                           error).value.events)
              == RecordedFailure(ld.events)
  {
    hide LoadedOk, FailEvent, FinalFailureWork, BeginCompensationOrFinish, Unedited, Replay, WithFailure,
         CompensationFailure;
    assert ld.state.core.tasks[id].status.Leased?;
    OnlyCompensationsWhenCancelled(env, ld, id);
    FailUnedited(env, ld, worker, id, error);
    FailEventKeepsTexts(env, ld, worker, id, error);
    var w1 := FailEvent(env, ld, worker, id, error).value;
    var mutations := FinalFailureIs(env, ld, w1, id, error);
    var failure := FailureOf(ld.state.core.tasks[id], error);
    hide LeaseCheck;
    if ld.state.core.cancelRequested {
      CancelledText(env, ld, w1, mutations, failure);
    } else {
      RecordedBegin(ld.state, env, w1, mutations, failure);
      UneditedAgrees(ld, BeginCompensationOrFinish(env, WithFailure(w1, mutations, failure)).value);
    }
  }

  lemma FinalFailureIs(env: Env, ld: Loaded, w: Work, id: TaskId, error: string) returns (mutations: seq<Mutation>)
    requires id in ld.state.core.tasks && FinalFailureWork(env, ld, w, id, error).Ok?
    ensures FinalFailureWork(env, ld, w, id, error)
            == BeginCompensationOrFinish(env, WithFailure(w, mutations, FailureOf(ld.state.core.tasks[id], error)))
  {
    hide BeginCompensationOrFinish, UpdateOf;
    mutations := Mutate(w, UpdateOf(env, ld, w, id).value).mutations;
  }

  lemma CancelledText(env: Env, ld: Loaded, w: Work, mutations: seq<Mutation>, failure: string)
    requires Replay(ld.def, ld.run, ld.events) == Ok(ld.state) && ld.state.core.cancelRequested
    requires w.state.core.cancelRequested && |w.events| == 1 && w.events[0].payload.TaskFailed?
    requires BeginCompensationOrFinish(env, WithFailure(w, mutations, failure)).Ok?
    ensures var w' := BeginCompensationOrFinish(env, WithFailure(w, mutations, failure)).value;
            && w'.state.run.failure == failure
            && RecordedFailure(ld.events + w'.events) == RecordedFailure(ld.events)
  {
    hide BeginCompensationOrFinish, RecordedFailure, Replay, CancelledBy;
    UnrecordedBegin(env, WithFailure(w, mutations, failure));
    CancelledLoad(ld);
    var w' := BeginCompensationOrFinish(env, WithFailure(w, mutations, failure)).value;
    assert w'.events[0] == w.events[0];
    NothingRecorded(ld.events, w'.events);
  }

  lemma OnlyCompensationsWhenCancelled(env: Env, ld: Loaded, id: TaskId)
    requires LoadedOk(env, ld) && id in ld.state.core.tasks && ld.state.core.tasks[id].status.Leased?
    ensures ld.state.core.cancelRequested ==> ld.state.core.tasks[id].phase.Compensation?
  {
    hide Inv, Committed, RowsAgree, Fresh, ValidDefinition;
    OpenIsWanted(ld.state.run.status, ld.state.core, id);
  }

  lemma CancelledLoad(ld: Loaded)
    requires Replay(ld.def, ld.run, ld.events) == Ok(ld.state)
    ensures ld.state.core.cancelRequested <==> CancelledBy(ld.events)
  {
    hide Fold, CancelledBy;
    FoldCancels(Initial(ld.def, ld.run), ld.events);
  }

  lemma FailText(env: Env, ld: Loaded, worker: string, id: TaskId, error: string, retryable: bool)
    requires LoadedOk(env, ld) && FailTask(env, ld, worker, id, error, retryable).Append?
    requires id in ld.state.core.tasks ==> ld.state.core.tasks[id].kind.Activity?
    requires Replay(ld.def, ld.run, ld.events) == Ok(ld.state)
    ensures var o := FailTask(env, ld, worker, id, error, retryable);
            && (TextAgrees(ld.events + o.events, o.run.failure) <==>
                  !LosesFailure(ld, FailRequest(worker, id, error, retryable)))
            && (ld.state.core.cancelRequested ==> RecordedFailure(ld.events + o.events) == RecordedFailure(ld.events))
  {
    hide LoadedOk, FailEvent, FinalFailureWork, RetryWork, Final, TextAgrees, Unedited, Replay;
    FinalFailureFinal(env, ld, worker, id, error) by { hide LosesFailure; }
    var w := FailEvent(env, ld, worker, id, error).value;
    if Retries(ld, id, ld.state.core.cancelRequested, retryable) {
      hide LeaseCheck;
      FailUnedited(env, ld, worker, id, error);
      RetryUnedited(ld.state, env, ld, w, id, error);
      UneditedAgrees(ld, RetryWork(env, ld, w, id, error).value);
    } else {
      FinalFailureText(env, ld, worker, id, error, retryable) by { hide LosesFailure; }
      hide LosesFailure;
    }
  }

  /** After a command, replay gives back the failure text of the run row exactly unless the command loses a failure. */
  lemma FailureExactly(env: Env, ld: Loaded, req: Request)
    requires LoadedOk(env, ld) && Execute(env, ld, req).Append?
    requires (req.CompleteRequest? || req.FailRequest?) && req.task in ld.state.core.tasks ==>
               ld.state.core.tasks[req.task].kind.Activity?
    requires Replay(ld.def, ld.run, ld.events) == Ok(ld.state)
    ensures var o := Execute(env, ld, req);
            && (TextAgrees(ld.events + o.events, o.run.failure) <==> !LosesFailure(ld, req))
            && (req.FailRequest? && ld.state.core.cancelRequested ==>
                  RecordedFailure(ld.events + o.events) == RecordedFailure(ld.events))
  {
    hide LoadedOk, CompleteWork, FailTask, CancelWork, FireWork, TextAgrees, Unedited, Replay;
    match req
    case CompleteRequest(worker, id, output) =>
      CompleteUnedited(env, ld, worker, id, output);
      UneditedAgrees(ld, CompleteWork(env, ld, worker, id, output).value);
    case FireRequest(id) =>
      FireUnedited(env, ld, id);
      UneditedAgrees(ld, FireWork(env, ld, id).value);
    case CancelRequest(_, reason) =>
      CancelUnedited(env, ld, reason);
      UneditedAgrees(ld, CancelWork(env, ld, reason).value);
    case FailRequest(worker, id, error, retryable) =>
      hide LosesFailure;
      FailText(env, ld, worker, id, error, retryable);
  }

  // ------------------------------------------------------------------ every reachable run

  /** The last event with which a command acted. */
  function LastAct(events: seq<Event>): Option<Event> {
    if |events| == 0 then None
    else if Acts(events[|events| - 1].payload) then Some(events[|events| - 1])
    else LastAct(events[..|events| - 1])
  }

  /** The last command reported a failing compensation of a run that is being cancelled, and an earlier failure is on
      record. */
  predicate FailureLost(events: seq<Event>) {
    var last := LastAct(events);
    && last.Some? && last.value.payload.TaskFailed? && last.value.payload.compensation
    && CancelledBy(events) && RecordedFailure(events).Some?
    && RecordedFailure(events).value != CompensationFailure(last.value.payload.stepId, last.value.payload.error)
  }

  /** The run row has the failure text that replay gives back, except exactly when that was lost. */
  predicate TextOk(v: View) {
    TextAgrees(v.history, v.run.failure) <==> !FailureLost(v.history)
  }

  lemma {:induction false} LastActIs(events: seq<Event>, more: seq<Event>)
    requires more != [] && Acts(more[0].payload) && forall i :: 1 <= i < |more| ==> !Acts(more[i].payload)
    ensures LastAct(events + more) == Some(more[0])
  {
    assert (events + more)[|events + more| - 1] == more[|more| - 1];
    if |more| > 1 {
      LastActIs(events, more[..|more| - 1]);
      assert (events + more)[..|events + more| - 1] == events + more[..|more| - 1];
    }
  }

  lemma NoNewCancel(events: seq<Event>, more: seq<Event>)
    requires forall i :: 0 <= i < |more| ==> !more[i].payload.RunCancelRequested?
    ensures CancelledBy(events + more) <==> CancelledBy(events)
  {
    if CancelledBy(events) {
      var i :| 0 <= i < |events| && events[i].payload.RunCancelRequested?;
      assert (events + more)[i] == events[i];
    }
  }

  lemma TextKeptByStore()
    ensures KeptByStore(v => TextOk(v))
  {
    hide RowStep;
    forall v, v', id, e {:trigger StoreStep(v, v', id, e)} | TextOk(v) && StoreStep(v, v', id, e) ensures TextOk(v') {
      assert e.payload.TaskLeased? || e.payload.TaskHeartbeat? by { StoreStepKind(v, v', id, e); }
      assert v'.history[..|v'.history| - 1] == v.history;
      NoNewCancel(v.history, [e]);
      hide CancelledBy;
    }
  }

  lemma StoreStepKind(v: View, v': View, id: TaskId, e: Event)
    requires StoreStep(v, v', id, e)
    ensures e.payload.TaskLeased? || e.payload.TaskHeartbeat?
  {
  }

  lemma TextKeptByCommands()
    ensures KeptByCommands(v => TextOk(v))
  {
    hide CommandStep, TextOk;
    forall v, v', env, ld, req, w {:trigger CommandStep(v, v', env, ld, req, w)}
      | TextOk(v) && CommandStep(v, v', env, ld, req, w) ensures TextOk(v')
    {
      CommandText(v, v', env, ld, req, w);
    }
  }

  lemma CommandText(v: View, v': View, env: Env, ld: Loaded, req: Request, w: Work)
    requires CommandStep(v, v', env, ld, req, w)
    ensures TextOk(v')
  {
    CommandWrites(v, v', env, ld, req, w) by { hide CommandStep, WritesOnly; }
    CommittedFailure(v, v', env, ld, req, w);
    hide LoadedOk, Execute, Final, Mutated, Replay, TextAgrees, FailureLost, WritesOnly;
    FailureExactly(env, ld, req);
    LostExactly(env, ld, req, w);
  }

  lemma CommittedFailure(v: View, v': View, env: Env, ld: Loaded, req: Request, w: Work)
    requires CommandStep(v, v', env, ld, req, w)
    ensures v'.run.failure == Execute(env, ld, req).run.failure && Execute(env, ld, req).events == w.events
  {
    hide LoadedOk, Execute, Final, Mutated, Replay;
  }

  /** The history tells whether its last command lost a failure. */
  lemma LostExactly(env: Env, ld: Loaded, req: Request, w: Work)
    requires LoadedOk(env, ld) && Replay(ld.def, ld.run, ld.events) == Ok(ld.state)
    requires Execute(env, ld, req).Append? && WritesOnly(ld, req, w.events, w.mutations)
    requires req.FailRequest? && req.task in ld.state.core.tasks ==> ld.state.core.tasks[req.task].kind.Activity?
    requires req.FailRequest? && ld.state.core.cancelRequested ==>
               RecordedFailure(ld.events + w.events) == RecordedFailure(ld.events)
    ensures FailureLost(ld.events + w.events) <==> LosesFailure(ld, req)
  {
    hide LoadedOk, Replay, RecordedFailure, CompensationFailure, CancelledBy;
    LastActIs(ld.events, w.events);
    if req.FailRequest? {
      assert LeaseCheck(ld, req.worker, req.task).None? by { FailedHeld(env, ld, req); }
      hide Execute;
      CancelledLoad(ld);
      NoNewCancel(ld.events, w.events);
      OnlyCompensationsWhenCancelled(env, ld, req.task);
    }
  }

  lemma FailedHeld(env: Env, ld: Loaded, req: Request)
    requires req.FailRequest? && Execute(env, ld, req).Append?
    ensures LeaseCheck(ld, req.worker, req.task).None?
  {
    hide FailEvent, RetryWork, FinalFailureWork, Retries, LeaseCheck;
  }

  lemma StartText(env: Env, def: Definition, input: Json)
    requires StartWork(env, def, input).Ok?
    ensures var w := StartWork(env, def, input).value;
            && TextAgrees(w.events, StartedRow(env, def, input, w).failure)
            && LastAct(w.events).Some? && LastAct(w.events).value.payload.WorkflowStarted?
  {
    var started, run := StartedEvent(env, def.name, NormalizeJson(input)), NewRun(env, def.name, NormalizeJson(input));
    assert [started][..0] == [];
    assert Fold(Initial(def, run), [started]) == Apply(Initial(def, run), started);
    var s := Apply(Initial(def, run), started).value;
    var w0 := Work(s, 2, [started], []);
    assert Unedited(Initial(def, run), w0);
    hide ScheduleForwardReady, Fold, RecordedFailure, Apply, FollowsUp;
    ReadyUnedited(Initial(def, run), env, w0, def.order);
    ReadyKeepsSummary(env, w0, def.order);
    var w := StartWork(env, def, input).value;
    ReplayedFailure(def, run, w.events);
    ReadyFollows(env, w0, def.order, None);
    assert w == ScheduleForwardReady(env, w0, def.order).value;
    StartedActs(started, w0, w);
  }

  lemma StartedActs(started: Event, w: Work, w': Work)
    requires w.events == [started] && Acts(started.payload) && FollowsUp(w, w', None)
    ensures LastAct(w'.events) == Some(started)
  {
    assert w'.events[0] == started;
    LastActIs([], w'.events);
    assert [] + w'.events == w'.events;
  }

  lemma TextHoldsAtStart()
    ensures HoldsAtStart(v => TextOk(v))
  {
    hide ValidDefinition, Fresh, StartWork, StartedRow, TextAgrees, LastAct;
    forall env, def, input, w {:trigger StartStep(env, def, input, w)} | StartStep(env, def, input, w)
      ensures TextOk(StartView(env, def, input, w))
    {
      StartText(env, def, input);
    }
  }

  /** In every reachable run replay gives back the failure text of the row, unless and only unless the last command
      was the failing of a compensation after a cancel request, with another failure on record. */
  lemma FailureReplaysExactly(defs: Definitions, ops: seq<Op>, r: RunId)
    requires Registered(defs) && r in Exec(defs, ops).runs
    ensures var db := Exec(defs, ops);
            && db.runs[r].workflowName in defs
            && (FailureMatches(defs[db.runs[r].workflowName], db.runs[r], HistoryOf(db.history, r))
                <==> !FailureLost(HistoryOf(db.history, r)))
  {
    hide Exec, Registered, ViewOk, ValidDefinition, FailureLost, Replay, FailureMatches, RowsOf, TextAgrees,
         KeptByStore, KeptByCommands,
         HoldsAtStart;
    TextKeptByStore();
    TextKeptByCommands();
    TextHoldsAtStart();
    EveryView(defs, ops, r, v => TextOk(v));
    ReachableView(defs, ops, r);
    var db := Exec(defs, ops);
    LegalHistory(defs[db.runs[r].workflowName], ViewOf(db, r));
    MatchesMeansAgrees(defs[db.runs[r].workflowName], db.runs[r], HistoryOf(db.history, r));
  }

  /** A compensation has failed after a cancel request. */
  predicate UnwindFailed(events: seq<Event>) {
    exists i, j :: 0 <= i < j < |events| && events[i].payload.RunCancelRequested?
                   && events[j].payload.TaskFailed? && events[j].payload.compensation
  }

  lemma {:induction false} LastActAt(events: seq<Event>) returns (j: nat)
    requires LastAct(events).Some?
    ensures j < |events| && events[j] == LastAct(events).value && Acts(events[j].payload)
    ensures forall i :: j < i < |events| ==> !Acts(events[i].payload)
  {
    if Acts(events[|events| - 1].payload) {
      j := |events| - 1;
    } else {
      j := LastActAt(events[..|events| - 1]);
    }
  }

  lemma LostMeansUnwindFailed(events: seq<Event>)
    requires FailureLost(events)
    ensures UnwindFailed(events)
  {
    hide RecordedFailure, CompensationFailure;
    var j := LastActAt(events);
    var i :| 0 <= i < |events| && events[i].payload.RunCancelRequested?;
    assert 0 <= i < j < |events|;
  }

  /** As long as no compensation has failed after a cancel request, replay gives back the failure text of the run
      row. */
  lemma FailureIsFixedPoint(defs: Definitions, ops: seq<Op>, r: RunId)
    requires Registered(defs) && r in Exec(defs, ops).runs
    requires !UnwindFailed(HistoryOf(Exec(defs, ops).history, r))
    ensures var db := Exec(defs, ops);
            && db.runs[r].workflowName in defs
            && FailureMatches(defs[db.runs[r].workflowName], db.runs[r], HistoryOf(db.history, r))
  {
    hide Exec, Registered, FailureMatches, FailureLost, UnwindFailed, HistoryOf;
    FailureReplaysExactly(defs, ops, r);
    var h := HistoryOf(Exec(defs, ops).history, r);
    if FailureLost(h) { LostMeansUnwindFailed(h); }
  }
}
