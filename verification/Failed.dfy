/** What a failed run can still do: when its status is left, and when it is not. */
module Failed {
  import opened Prelude
  import opened Workflow
  import opened History
  import opened Engine
  import opened Reducer
  import opened Invariant
  import opened Chronicle
  import opened Commands
  import opened Tracking
  import opened Settled
  import opened CommandProofs
  import opened CancelProofs
  import opened Tables
  import opened Runs
  import opened System
  import opened Operations
  import opened Histories
  import opened Guarantees
  import opened Overlap
  import opened Footprint
  import opened Steps

  // ------------------------------------------------------------------ a task fails for good

  lemma MovedFlags(s: Core, s': Core, id: TaskId)
    requires Moves(s, s', id)
    ensures id in s'.tasks && s'.compensating == s.compensating && s'.cancelRequested == s.cancelRequested
  {
  }

  /** What the failure makes of the run: it is unwound if a completed step has a compensation, and otherwise has
      failed. */
  lemma BeginSummary(env: Env, w: Work)
    requires BeginCompensationOrFinish(env, w).Ok? && !w.state.core.cancelRequested
    ensures var w' := BeginCompensationOrFinish(env, w).value;
            && w'.state.run.status == (if NextCompensation(w.state.core).Some? then RunStatus.Compensating
                   else RunStatus.Failed)
            && w'.state.core.compensating == (w.state.core.compensating || NextCompensation(w.state.core).Some?)
            && !w'.state.core.cancelRequested
  {
    hide NextCompensation, NewTask;
  }

  /** How the flags and the status of `s'` follow from a failure for good in `s`. */
  predicate Summarises(s: Core, s': Core, status: RunStatus) {
    && status == (if NextCompensation(s).Some? then RunStatus.Compensating else RunStatus.Failed)
    && s'.compensating == (s.compensating || NextCompensation(s).Some?)
    && !s'.cancelRequested
  }

  lemma FailureSummary(env: Env, ld: Loaded, worker: string, id: TaskId, error: string)
    requires LoadedOk(env, ld) && id in ld.state.core.tasks && !ld.state.core.cancelRequested
    requires var t := ld.state.core.tasks[id]; t.kind.Activity? && t.status.Leased? && t.leaseOwner == worker
    requires FailEvent(env, ld, worker, id, error).Ok?
    requires FinalFailureWork(env, ld, FailEvent(env, ld, worker, id, error).value, id, error).Ok?
    ensures var w := FinalFailureWork(env, ld, FailEvent(env, ld, worker, id, error).value, id, error).value;
            Summarises(ld.state.core, w.state.core, w.state.run.status)
  {
    var t := ld.state.core.tasks[id];
    var e := EndEvent(env, ld, id, TaskFailed(id, t.stepId, worker, error, t.phase.Compensation?));
    hide LoadedOk, Ends, Open, FinalFailureWork, FailEvent, BeginCompensationOrFinish, Fresh, Moves, EndEvent,
         NextCompensation;
    var s' := FailEnds(env, ld, worker, id, e);
    var w := FailureBegins(env, ld, worker, id, error, e, s');
    EndsParts(env, ld, id, e, s');
    MovedFlags(ld.state.core, s', id);
    EndKeepsNext(ld.state.core, s', id);
    BeginSummary(env, w);
  }

  // ------------------------------------------------------------------ a task completes

  lemma AdvanceStaysFailed(env: Env, w: Work)
    requires AdvanceCompensation(env, w).Ok? && !w.state.core.cancelRequested && w.state.run.status.Failed?
    ensures AdvanceCompensation(env, w).value.state.run.status.Failed?
  {
    hide NextCompensation, NewTask, HasOpen;
  }

  /** A run that has lost a step neither completes nor leaves its status when another task completes. */
  lemma CompletionStaysFailed(b: Base, env: Env, w: Work)
    requires Good(b, env, w) && Filed(b.def.steps, b.def.order) && PostProcess(env, b.def.order, w).Ok?
    requires w.state.run.status.Failed? && AnyLost(w.state.core) && !w.state.core.cancelRequested
    ensures PostProcess(env, b.def.order, w).value.state.run.status.Failed?
  {
    hide Good, AnyLost, Emit, ScheduleForwardReady, AdvanceCompensation, HasOpen, AllForwardCompleted, AllCompleted,
         ReadyScheduled, Inv, RunOutput;
    if w.state.core.compensating {
      AdvanceStaysFailed(env, w);
    } else {
      ReadyStepsSettled(b, env, w);
      LostIsNotCompleted(ScheduleForwardReady(env, w, b.def.order).value.state.core);
    }
  }

  lemma EndedStaysFailed(env: Env, ld: Loaded, id: TaskId, e: Event, s': Core)
    requires LoadedOk(env, ld) && Ends(env, ld, id, e, s') && Open(ld.state.core, id) && ld.state.run.status.Failed?
    requires e.payload.TaskCompleted? || e.payload.TimerFired?
    requires PostProcess(env, ld.def.order, EndedWork(env, ld, id, e, s')).Ok?
    ensures PostProcess(env, ld.def.order, EndedWork(env, ld, id, e, s')).value.state.run.status.Failed?
  {
    EndsGood(env, ld, id, e, s') by { hide LoadedOk, Ends; }
    EndsParts(env, ld, id, e, s') by { hide LoadedOk, Ends; }
    FailedHasLost(env, ld) by { hide LoadedOk, Ends; }
    LoadedFacts(env, ld) by { hide LoadedOk, Ends; }
    assert TaskOk(ld.state.core, id) by { hide Ends, Committed, StepOk; }
    hide LoadedOk, Ends, Good, PostProcess, AnyLost, Moves, Inv, Committed;
    LossAfterMove(ld.state.core, s', id);
    MovedFlags(ld.state.core, s', id);
    hide TaskOk;
    CompletionStaysFailed(BaseOf(ld), env, EndedWork(env, ld, id, e, s'));
  }

  lemma FailedHasLost(env: Env, ld: Loaded)
    requires LoadedOk(env, ld) && ld.state.run.status.Failed?
    ensures AnyLost(ld.state.core) && !ld.state.core.cancelRequested
  {
    hide Inv, RowsAgree, Fresh, ValidDefinition, AnyLost, AllCompleted, ReadyScheduled, NextCompensation, HasOpen;
  }

  lemma CompleteStaysFailed(env: Env, ld: Loaded, worker: string, id: TaskId, output: Json)
    requires LoadedOk(env, ld) && LeaseCheck(ld, worker, id).None? && ld.state.core.tasks[id].kind.Activity?
    requires ld.state.run.status.Failed? && CompleteWork(env, ld, worker, id, output).Ok?
    ensures CompleteWork(env, ld, worker, id, output).value.state.run.status.Failed?
  {
    var t := ld.state.core.tasks[id];
    var e := EndEvent(env, ld, id, TaskCompleted(id, t.stepId, worker, NormalizeJson(output), t.phase.Compensation?));
    hide LoadedOk, CompleteWork, Ends, EndedWork, PostProcess, EmitAndUpdate, Open;
    var s' := CompleteEnds(env, ld, worker, id, e);
    EndsGood(env, ld, id, e, s');
    CompleteWorkIs(env, ld, worker, id, output, EndedWork(env, ld, id, e, s'));
    EndedStaysFailed(env, ld, id, e, s');
  }

  lemma FireStaysFailed(env: Env, ld: Loaded, id: TaskId)
    requires LoadedOk(env, ld) && TimerDue(ld, id, env.now) && ld.state.run.status.Failed? && FireWork(env, ld, id).Ok?
    ensures FireWork(env, ld, id).value.state.run.status.Failed?
  {
    var e := EndEvent(env, ld, id, TimerFired(id, ld.state.core.tasks[id].stepId));
    hide LoadedOk, Ends, EndedWork, PostProcess, EmitAndUpdate, Open;
    var s' := FireEnds(env, ld, id, e);
    EndsGood(env, ld, id, e, s');
    EndedStaysFailed(env, ld, id, e, s');
  }

  // ------------------------------------------------------------------ the exact condition

  /** A failure that is not retried, while a completed step is left to compensate. */
  predicate FailsFurther(ld: Loaded, req: Request) {
    && req.FailRequest? && req.task in ld.state.core.tasks
    && ForGood(ld, req.task, req.retryable)
    && NextCompensation(ld.state.core).Some?
  }

  /** What a command makes of the status of a failed run. */
  lemma StatusAfterFailed(env: Env, ld: Loaded, req: Request)
    requires LoadedOk(env, ld) && ld.state.run.status.Failed? && Execute(env, ld, req).Append?
    requires (req.CompleteRequest? || req.FailRequest?) && req.task in ld.state.core.tasks ==>
               ld.state.core.tasks[req.task].kind.Activity?
    ensures Execute(env, ld, req).run.status == if FailsFurther(ld, req) then RunStatus.Compensating
              else RunStatus.Failed
  {
    hide LoadedOk, CompleteWork, FailEvent, FinalFailureWork, RetryWork, CancelWork, FireWork, LeaseCheck, Retries,
         Final, NextCompensation;
    match req
    case CompleteRequest(worker, id, output) =>
      CheckedTask(ld, worker, id);
      CompleteStaysFailed(env, ld, worker, id, output);
    case FireRequest(id) => FireStaysFailed(env, ld, id);
    case CancelRequest(_, _) => FailedIsTerminal(env, ld);
    case FailRequest(worker, id, error, retryable) =>
      CheckedTask(ld, worker, id);
      FailureStatus(env, ld, worker, id, error, retryable);
  }

  lemma FailedIsTerminal(env: Env, ld: Loaded)
    requires LoadedOk(env, ld) && ld.state.run.status.Failed?
    ensures ld.run.status.Terminal()
  {
    hide Inv, Committed, RowsAgree, Fresh, ValidDefinition;
  }

  lemma RetryStatus(env: Env, ld: Loaded, worker: string, id: TaskId, error: string)
    requires LoadedOk(env, ld) && LeaseCheck(ld, worker, id).None? && ld.state.core.tasks[id].kind.Activity?
    requires Retries(ld, id, ld.state.core.cancelRequested, true)
    ensures ld.state.core.tasks[id].stepId in ld.def.steps && FailEvent(env, ld, worker, id, error).Ok?
    ensures RetryWork(env, ld, FailEvent(env, ld, worker, id, error).value, id, error).Ok?
    ensures RetryWork(env, ld, FailEvent(env, ld, worker, id, error).value, id, error).value.state.run.status
              == ld.state.run.status
  {
    RetriesForward(ld, id) by { hide LoadedOk; }
    hide LoadedOk, FailEvent, RetryWork, LeaseCheck, Chained, Moves, Open;
    var w := RetryParts(env, ld, worker, id, error);
  }

  lemma HeldTask(ld: Loaded, worker: string, id: TaskId)
    requires LeaseCheck(ld, worker, id).None? && ld.state.core.tasks[id].kind.Activity?
    ensures ld.state.core.tasks[id].status.Leased? && ld.state.core.tasks[id].leaseOwner == worker
  {
  }

  lemma FinalFailureStatus(env: Env, ld: Loaded, worker: string, id: TaskId, error: string)
    requires LoadedOk(env, ld) && LeaseCheck(ld, worker, id).None? && ld.state.core.tasks[id].kind.Activity?
    requires ld.state.run.status.Failed?
    ensures FailEvent(env, ld, worker, id, error).Ok?
    ensures FinalFailureWork(env, ld, FailEvent(env, ld, worker, id, error).value, id, error).Ok?
    ensures FinalFailureWork(env, ld, FailEvent(env, ld, worker, id, error).value, id, error).value.state.run.status ==
            if NextCompensation(ld.state.core).Some? then RunStatus.Compensating else RunStatus.Failed
  {
    HeldTask(ld, worker, id);
    hide LoadedOk, FailEvent, FinalFailureWork, Final, NextCompensation, LeaseCheck;
    FinalFailureFinal(env, ld, worker, id, error);
    FailedHasLost(env, ld);
    FailureSummary(env, ld, worker, id, error);
  }

  lemma FailureStatus(env: Env, ld: Loaded, worker: string, id: TaskId, error: string, retryable: bool)
    requires LoadedOk(env, ld) && ld.state.run.status.Failed? && FailTask(env, ld, worker, id, error, retryable).Append?
    requires LeaseCheck(ld, worker, id).None? && ld.state.core.tasks[id].kind.Activity?
    ensures FailTask(env, ld, worker, id, error, retryable).run.status ==
            if FailsFurther(ld, FailRequest(worker, id, error, retryable)) then RunStatus.Compensating
                else RunStatus.Failed
  {
    CheckedTask(ld, worker, id);
    hide LoadedOk, FailEvent, FinalFailureWork, RetryWork, Retries, ForGood, NextCompensation, LeaseCheck, WritesOnly;
    FailEventWrites(env, ld, worker, id, error, retryable) by { FinalFailureStatus(env, ld, worker, id, error); }
    RetriesUnlessForGood(ld, id, retryable);
    if Retries(ld, id, ld.state.core.cancelRequested, retryable) {
      RetriesIfRetryable(ld, id, retryable);
      RetryStatus(env, ld, worker, id, error);
    } else {
      FinalFailureStatus(env, ld, worker, id, error);
    }
  }

  /** The operation is such a failure in run `r`. */
  ghost predicate FailsFurtherOn(defs: Definitions, db: Db, op: Op, r: RunId) {
    SubmitsTo(defs, db, op, r) && FailsFurther(LoadOf(defs, db, op, r), op.req)
  }

  /** A failed run stays failed whatever is done, except that a further failure for good turns it back to compensating
      if and only if a completed step is left to compensate. */
  lemma LeavesFailedExactly(defs: Definitions, ops: seq<Op>, op: Op, r: RunId)
    requires Registered(defs) && r in Exec(defs, ops).runs && Exec(defs, ops).runs[r].status.Failed?
    ensures r in Exec(defs, ops + [op]).runs
    ensures Exec(defs, ops + [op]).runs[r].status ==
            if FailsFurtherOn(defs, Exec(defs, ops), op, r) then RunStatus.Compensating else RunStatus.Failed
  {
    hide Exec, Registered, DbOk, Next, SubmitsTo, FailsFurther, CommandStep, RowsOf, HistoryOf;
    var db := Exec(defs, ops);
    ReachableOk(defs, ops);
    ExecSnoc(defs, ops, op);
    if SubmitsTo(defs, db, op, r) {
      SubmitIsLoaded(defs, db, op, r);
      var w := SubmitStep(defs, db, op, r);
      CommandStatus(ViewOf(db, r), ViewOf(Next(defs, db, op), r), Env(r, op.now, op.uuid), LoadOf(defs, db, op, r),
                    op.req, w);
    } else {
      FailedKeptByStore();
      OtherOpKeeps(defs, db, op, r, (v: View) => v.run.status.Failed?) by { hide ViewOf; }
    }
  }

  lemma FailedKeptByStore()
    ensures KeptByStore((v: View) => v.run.status.Failed?)
  {
    hide RowStep;
  }

  lemma CommandStatus(v: View, v': View, env: Env, ld: Loaded, req: Request, w: Work)
    requires CommandStep(v, v', env, ld, req, w) && v.run.status.Failed?
    ensures v'.run.status == if FailsFurther(ld, req) then RunStatus.Compensating else RunStatus.Failed
  {
    assert ld.state.run.status.Failed? by { hide Execute, Commits, Inv, Committed, RowsAgree, Fresh, ValidDefinition,
                                           Replay; }
    hide LoadedOk, Execute, Final, Replay, Mutated, FailsFurther;
    StatusAfterFailed(env, ld, req);
  }
}
