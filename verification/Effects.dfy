/** What an accepted request does, in terms of what was asked and of the rows it found. */
module Effects {
  import opened Prelude
  import opened Workflow
  import opened History
  import opened Engine
  import opened Reducer
  import opened Invariant
  import opened Chronicle
  import opened Commands
  import opened Tracking
  import opened Settled
  import opened CommandProofs
  import opened CancelProofs
  import opened Tables
  import opened Runs
  import opened System
  import opened Operations
  import opened Histories
  import opened Guarantees
  import opened Overlap
  import opened Footprint
  import opened Steps
  import opened Summaries
  import opened FailureText
  import opened Failed
  import opened Leases
  import opened Recovery

  // ------------------------------------------------------------------ commands leave the other tasks alone

  ghost predicate KeepsTasks(s: Core, s': Core) {
    forall id :: id in s.tasks ==> id in s'.tasks && s'.tasks[id] == s.tasks[id]
  }

  lemma BeginKeepsTasks(env: Env, w: Work)
    requires BeginCompensationOrFinish(env, w).Ok? && Fresh(env, w.state.core.tasks, w.next)
    ensures KeepsTasks(w.state.core, BeginCompensationOrFinish(env, w).value.state.core)
  {
    hide BeginCompensationOrFinish, NextCompensation, Fresh;
    BeginTasks(env, w);
  }

  lemma {:induction false} ReadyKeepsTasks(b: Base, env: Env, w: Work, list: seq<StepId>)
    requires Good(b, env, w) && Filed(b.def.steps, b.def.order)
    requires forall i :: 0 <= i < |list| ==> list[i] in w.state.core.steps
    requires !w.state.core.compensating && !w.state.core.cancelRequested
    ensures ScheduleForwardReady(env, w, list).Ok?
    ensures KeepsTasks(w.state.core, ScheduleForwardReady(env, w, list).value.state.core)
  {
    hide Good, ScheduleIfReady;
    if list != [] {
      var init, x := list[..|list| - 1], list[|list| - 1];
      ReadyStepsGood(b, env, w, list);
      ReadyStepsGood(b, env, w, init);
      ReadyKeepsTasks(b, env, w, init);
      ReadyKeepsTask(b, env, ScheduleForwardReady(env, w, init).value, x);
    }
  }

  lemma ReadyKeepsTask(b: Base, env: Env, w: Work, x: StepId)
    requires Good(b, env, w) && ScheduleIfReady(env, w, x).Ok?
    ensures KeepsTasks(w.state.core, ScheduleIfReady(env, w, x).value.state.core)
  {
    hide Chained, Tracked, Schedule, DependenciesCompleted;
    if Ready(w.state.core, x) {
      ScheduledTasks(env, w, w.state.core.steps[x].definition, Forward);
    }
  }

  /** Completing the run changes neither tasks nor direction. */
  lemma RunCompletionKeepsTasks(env: Env, w: Work)
    requires Emit(env, w, "", None, RunCompleted(RunOutput(w.state.core))).Ok?
    ensures var s, s' := w.state.core, Emit(env, w, "", None, RunCompleted(RunOutput(w.state.core))).value.state.core;
            s'.tasks == s.tasks && (HeadsForward(s') <==> HeadsForward(s))
  {
    hide ApplyRun, RunOutput;
  }

  lemma ForwardKeepsTasks(env: Env, order: seq<StepId>, w: Work)
    requires !w.state.core.compensating && PostProcess(env, order, w).Ok? && ScheduleForwardReady(env, w, order).Ok?
    ensures var s, s' := ScheduleForwardReady(env, w, order).value.state.core,
              PostProcess(env, order, w).value.state.core;
            s'.tasks == s.tasks && (HeadsForward(s') <==> HeadsForward(s))
  {
    hide ScheduleForwardReady, AllForwardCompleted, HasOpen, RunOutput, Emit, HeadsForward;
    var w1 := ScheduleForwardReady(env, w, order).value;
    if AllForwardCompleted(order, w1.state.core) && !HasOpen(w1.state.core, Forward) {
      RunCompletionKeepsTasks(env, w1);
    }
  }

  lemma PostProcessKeepsTasks(b: Base, env: Env, w: Work)
    requires Good(b, env, w) && Filed(b.def.steps, b.def.order)
    requires !w.state.core.compensating && !w.state.core.cancelRequested
    requires PostProcess(env, b.def.order, w).Ok?
    ensures KeepsTasks(w.state.core, PostProcess(env, b.def.order, w).value.state.core)
    ensures HeadsForward(PostProcess(env, b.def.order, w).value.state.core)
  {
    hide ScheduleForwardReady, PostProcess, KeepsTasks, Good, Inv, ReadyScheduled, AnyLost, AllCompleted,
         AllForwardCompleted;
    GoodInv(b, env, w);
    OrderCovers(b.def, w.state.core);
    ReadyKeepsTasks(b, env, w, b.def.order);
    ReadyStepsSettled(b, env, w);
    ForwardKeepsTasks(env, b.def.order, w);
    var w1 := ScheduleForwardReady(env, w, b.def.order).value;
    SameTasksKept(w.state.core, w1.state.core, PostProcess(env, b.def.order, w).value.state.core);
  }

  predicate HeadsForward(s: Core) {
    !s.compensating && !s.cancelRequested
  }

  lemma SameTasksKept(s: Core, s': Core, s'': Core)
    requires KeepsTasks(s, s') && s''.tasks == s'.tasks
    ensures KeepsTasks(s, s'')
  {
  }

  /** Task `id` has ended with `status`, and the other tasks are as they were. */
  ghost predicate OnlyEnded(s: Core, s': Core, id: TaskId, status: TaskStatus) {
    && (forall k :: k in s.tasks && k != id ==> k in s'.tasks && s'.tasks[k] == s.tasks[k])
    && id in s.tasks && id in s'.tasks && s'.tasks[id].status == status
    && s'.tasks[id].stepId == s.tasks[id].stepId && s'.tasks[id].phase == s.tasks[id].phase
         && s'.tasks[id].kind == s.tasks[id].kind
  }

  lemma MovedThenKept(s: Core, s': Core, s'': Core, id: TaskId)
    requires Moves(s, s', id) && KeepsTasks(s', s'')
    ensures OnlyEnded(s, s'', id, s'.tasks[id].status)
  {
  }

  /** A completed task leaves the others of a run that goes forward as they were. */
  lemma CompleteKeepsTasks(env: Env, ld: Loaded, worker: string, id: TaskId, output: Json)
    requires LoadedOk(env, ld) && LeaseCheck(ld, worker, id).None? && ld.state.core.tasks[id].kind.Activity?
    requires !ld.state.core.compensating && !ld.state.core.cancelRequested
    ensures CompleteWork(env, ld, worker, id, output).Ok?
    ensures OnlyEnded(ld.state.core, CompleteWork(env, ld, worker, id, output).value.state.core, id,
                      TaskStatus.Completed)
    ensures HeadsForward(CompleteWork(env, ld, worker, id, output).value.state.core)
  {
    var t := ld.state.core.tasks[id];
    var e := EndEvent(env, ld, id, TaskCompleted(id, t.stepId, worker, NormalizeJson(output), t.phase.Compensation?));
    hide LoadedOk, CompleteWork, Ends, PostProcess, EmitAndUpdate, Open, Good, LeaseCheck, Final, Moves, KeepsTasks,
         OnlyEnded, Inv, Committed, Fresh, EndEvent;
    CompleteWorkFinal(env, ld, worker, id, output);
    var s' := CompleteEnds(env, ld, worker, id, e);
    EndsParts(env, ld, id, e, s');
    MovedFlags(ld.state.core, s', id);
    EndsGood(env, ld, id, e, s');
    var w := EndedWork(env, ld, id, e, s');
    CompleteWorkIs(env, ld, worker, id, output, w);
    LoadedFacts(env, ld);
    hide EndedWork, ApplyRun;
    PostProcessKeepsTasks(BaseOf(ld), env, w);
    MovedThenKept(ld.state.core, s', CompleteWork(env, ld, worker, id, output).value.state.core, id);
  }

  /** So does a task that fails for good. */
  lemma FailureKeepsTasks(env: Env, ld: Loaded, worker: string, id: TaskId, error: string)
    requires LoadedOk(env, ld) && LeaseCheck(ld, worker, id).None? && ld.state.core.tasks[id].kind.Activity?
    ensures FailEvent(env, ld, worker, id, error).Ok?
    ensures FinalFailureWork(env, ld, FailEvent(env, ld, worker, id, error).value, id, error).Ok?
    ensures OnlyEnded(ld.state.core, FinalFailureWork(env, ld, FailEvent(env, ld, worker, id, error).value, id,
                                                      error).value.state.core,
                      id, TaskStatus.Failed)
  {
    var t := ld.state.core.tasks[id];
    var e := EndEvent(env, ld, id, TaskFailed(id, t.stepId, worker, error, t.phase.Compensation?));
    hide LoadedOk, Ends, Open, FinalFailureWork, FailEvent, LeaseCheck, BeginCompensationOrFinish, Fresh, Final,
         Moves, KeepsTasks, OnlyEnded, EndEvent;
    FinalFailureFinal(env, ld, worker, id, error);
    var s' := FailEnds(env, ld, worker, id, e);
    var w := FailureBegins(env, ld, worker, id, error, e, s');
    EndsParts(env, ld, id, e, s');
    MovedFlags(ld.state.core, s', id);
    BeginKeepsTasks(env, w);
    MovedThenKept(ld.state.core, s', BeginCompensationOrFinish(env, w).value.state.core, id);
  }

  lemma SameNext(s: Core, s': Core)
    requires s' == s.(cancelRequested := true)
    ensures NextCompensation(s') == NextCompensation(s)
  {
  }

  lemma RevokingParts(env: Env, ld: Loaded, s: Core, w: Work)
    requires Revoking(env, ld, s, w)
    ensures NextCompensation(w.state.core) == NextCompensation(s) && Fresh(env, w.state.core.tasks, w.next)
  {
    hide Chained, Tracked, Fresh, NextCompensation, AnyLost, Row;
  }

  // ------------------------------------------------------------------ what a command makes of its task

  lemma AdvanceKeepsTasks(env: Env, w: Work)
    requires AdvanceCompensation(env, w).Ok? && Fresh(env, w.state.core.tasks, w.next)
    ensures KeepsTasks(w.state.core, AdvanceCompensation(env, w).value.state.core)
  {
    hide Schedule, NextCompensation, HasOpen;
    var s := w.state.core;
    if !HasOpen(s, Compensation) && NextCompensation(s).Some? {
      ScheduledTasks(env, w, CompensationStep(s.steps[NextCompensation(s).value].definition), Compensation);
    }
  }

  /** What follows the end of a task leaves all tasks there are as they are. */
  lemma EndingKeepsTasks(b: Base, env: Env, w: Work)
    requires Good(b, env, w) && Filed(b.def.steps, b.def.order) && PostProcess(env, b.def.order, w).Ok?
    requires w.state.core.cancelRequested ==> w.state.core.compensating
    ensures KeepsTasks(w.state.core, PostProcess(env, b.def.order, w).value.state.core)
  {
    if w.state.core.compensating {
      assert Fresh(env, w.state.core.tasks, w.next) by { hide Chained, Tracked, Fresh; }
      hide Good, Fresh, KeepsTasks, AdvanceCompensation;
      AdvanceKeepsTasks(env, w);
    } else {
      hide Good, PostProcess, KeepsTasks;
      PostProcessKeepsTasks(b, env, w);
    }
  }

  lemma EndedTask(env: Env, ld: Loaded, id: TaskId, e: Event, s': Core)
    requires LoadedOk(env, ld) && Ends(env, ld, id, e, s') && Open(ld.state.core, id)
    requires PostProcess(env, ld.def.order, EndedWork(env, ld, id, e, s')).Ok?
    ensures KeepsTasks(s', PostProcess(env, ld.def.order, EndedWork(env, ld, id, e, s')).value.state.core)
  {
    EndsGood(env, ld, id, e, s') by { hide LoadedOk, Ends; }
    EndsParts(env, ld, id, e, s') by { hide LoadedOk, Ends; }
    LoadedFacts(env, ld) by { hide LoadedOk, Ends; }
    OpenMeansUnfinished(ld.def, ld.state.run.status, ld.state.core, id) by { hide LoadedOk, Ends, Inv, Committed; }
    hide LoadedOk, Ends, Good, PostProcess, KeepsTasks, Moves, Inv, Committed, Open;
    MovedFlags(ld.state.core, s', id);
    EndingKeepsTasks(BaseOf(ld), env, EndedWork(env, ld, id, e, s'));
  }

  /** The task has completed, and says nothing else than before. */
  predicate TaskCompletes(t: TaskState, t': TaskState) {
    t'.status.Completed? && t'.attempt == t.attempt && t'.error == t.error && t'.availableAt == t.availableAt
  }

  lemma CompletedStep(s: Core, e: Event, s': Core, id: TaskId)
    requires ApplyCore(s, e) == Ok(s') && id in s.tasks && (e.payload.TaskCompleted? || e.payload.TimerFired?)
    requires e.payload.taskId == id
    ensures id in s'.tasks && TaskCompletes(s.tasks[id], s'.tasks[id])
  {
  }

  lemma CompletedTask(env: Env, ld: Loaded, worker: string, id: TaskId, output: Json)
    requires LoadedOk(env, ld) && LeaseCheck(ld, worker, id).None? && ld.state.core.tasks[id].kind.Activity?
    requires CompleteWork(env, ld, worker, id, output).Ok?
    ensures var s := CompleteWork(env, ld, worker, id, output).value.state.core;
            id in s.tasks && TaskCompletes(ld.state.core.tasks[id], s.tasks[id])
  {
    var t := ld.state.core.tasks[id];
    var e := EndEvent(env, ld, id, TaskCompleted(id, t.stepId, worker, NormalizeJson(output), t.phase.Compensation?));
    var s' := CompleteEnds(env, ld, worker, id, e) by { hide LoadedOk; }
    CompletedStep(ld.state.core, e, s', id) by { hide LoadedOk, ApplyCore, Legal, Moves; }
    hide LoadedOk, CompleteWork, Ends, EndedWork, PostProcess, EmitAndUpdate, Open, TaskCompletes, LeaseCheck;
    EndsGood(env, ld, id, e, s');
    CompleteWorkIs(env, ld, worker, id, output, EndedWork(env, ld, id, e, s'));
    EndedTask(env, ld, id, e, s');
  }

  lemma FiredTask(env: Env, ld: Loaded, id: TaskId)
    requires LoadedOk(env, ld) && TimerDue(ld, id, env.now) && FireWork(env, ld, id).Ok?
    ensures var s := FireWork(env, ld, id).value.state.core;
            id in s.tasks && TaskCompletes(ld.state.core.tasks[id], s.tasks[id])
  {
    var e := EndEvent(env, ld, id, TimerFired(id, ld.state.core.tasks[id].stepId));
    var s' := FireEnds(env, ld, id, e) by { hide LoadedOk; }
    CompletedStep(ld.state.core, e, s', id) by { hide LoadedOk, ApplyCore, Legal, Moves; }
    hide LoadedOk, Ends, EndedWork, PostProcess, EmitAndUpdate, Open, TaskCompletes;
    EndsGood(env, ld, id, e, s');
    EndedTask(env, ld, id, e, s');
  }

  /** The task has failed with `error`, and says nothing else than before. */
  predicate TaskFails(t: TaskState, t': TaskState, error: string) {
    t'.status.Failed? && t'.attempt == t.attempt && t'.error == error && t'.availableAt == t.availableAt
  }

  lemma FailedStep(s: Core, e: Event, s': Core, id: TaskId)
    requires ApplyCore(s, e) == Ok(s') && id in s.tasks && e.payload.TaskFailed? && e.payload.taskId == id
    ensures id in s'.tasks && TaskFails(s.tasks[id], s'.tasks[id], e.payload.error)
  {
  }

  lemma FailedTask(env: Env, ld: Loaded, worker: string, id: TaskId, error: string)
    requires LoadedOk(env, ld) && LeaseCheck(ld, worker, id).None? && ld.state.core.tasks[id].kind.Activity?
    requires FailEvent(env, ld, worker, id, error).Ok?
    requires FinalFailureWork(env, ld, FailEvent(env, ld, worker, id, error).value, id, error).Ok?
    ensures var s := FinalFailureWork(env, ld, FailEvent(env, ld, worker, id, error).value, id, error).value.state.core;
            id in s.tasks && TaskFails(ld.state.core.tasks[id], s.tasks[id], error)
  {
    var t := ld.state.core.tasks[id];
    var e := EndEvent(env, ld, id, TaskFailed(id, t.stepId, worker, error, t.phase.Compensation?));
    var s' := FailEnds(env, ld, worker, id, e) by { hide LoadedOk, FailEvent, FinalFailureWork; }
    FailedStep(ld.state.core, e, s', id) by { hide LoadedOk, FailEvent, FinalFailureWork, ApplyCore, Legal, Moves; }
    hide LoadedOk, Ends, Open, FinalFailureWork, FailEvent, LeaseCheck, BeginCompensationOrFinish, Fresh, TaskFails;
    var w := FailureBegins(env, ld, worker, id, error, e, s');
    BeginKeepsTasks(env, w);
  }

  // ------------------------------------------------------------------ an accepted report

  /** What one accepted report of a worker did to its run. */
  lemma AcceptedStep(defs: Definitions, ops: seq<Op>, op: Op) returns (env: Env, ld: Loaded, w: Work)
    requires Registered(defs) && op.Submit? && (op.req.CompleteRequest? || op.req.FailRequest?)
    requires Allowed(Exec(defs, ops), op) && Perform(defs, Exec(defs, ops), op).Ok?
    ensures var db, db' := Exec(defs, ops), Exec(defs, ops + [op]);
            && op.req.task in db.tasks
            && var r := db.tasks[op.req.task].runId;
            && env == Env(r, op.now, op.uuid)
            && r in db.runs && r in db'.runs && db.runs[r].workflowName in defs
                 && ld.def == defs[db.runs[r].workflowName]
            && CommandStep(ViewOf(db, r), ViewOf(db', r), env, ld, op.req, w)
  {
    hide Exec, Registered, DbOk, RunOk, Next, Load, Execute, LoadedOk, CommandStep, Command, Write, Enabled,
         Continues, ViewOf;
    var db := Exec(defs, ops);
    ReachableOk(defs, ops);
    AcceptedKnown(defs, db, op);
    RunOfTask(defs, db, op.req.task);
    var r := db.tasks[op.req.task].runId;
    env := Env(r, op.now, op.uuid);
    var w0;
    ld, w0 := CommandCommits(defs, db, op.req, op.listing, op.now, op.uuid);
    AcceptedAppends(db, env, ld, op.req);
    LoadedParts(defs, db, r, op.listing);
    w := SubmitStep(defs, db, op, r);
    ExecSnoc(defs, ops, op);
  }

  lemma AcceptedKnown(defs: Definitions, db: Db, op: Op)
    requires op.Submit? && !op.req.CancelRequest? && Perform(defs, db, op).Ok?
    ensures op.req.task in db.tasks
  {
    hide Load, Write, Execute;
  }

  lemma AcceptedAppends(db: Db, env: Env, ld: Loaded, req: Request)
    requires (req.CompleteRequest? || req.FailRequest?) && Write(db, ld.run.version, Execute(env, ld, req)).Ok?
    ensures Execute(env, ld, req).Append?
  {
    hide CompleteWork, FailEvent, FinalFailureWork, RetryWork, LeaseCheck, Retries, AppendRunChanges;
  }

  /** How the row before and after a command stand to the task before and after it. */
  lemma CommandRow(v: View, v': View, env: Env, ld: Loaded, req: Request, w: Work, id: TaskId)
    requires CommandStep(v, v', env, ld, req, w) && id in v.tasks
    ensures id in ld.state.core.tasks && RowAgrees(ld.state.core.tasks[id], v.tasks[id])
    ensures id in w.state.core.tasks ==> id in v'.tasks && RowAgrees(w.state.core.tasks[id], v'.tasks[id])
    ensures v'.history == v.history + w.events
  {
    CommandRows(v, v', env, ld, req, w);
    CommandWrites(v, v', env, ld, req, w) by { hide CommandStep, WritesOnly; }
    RowFacts(ld.state.core.tasks, v.tasks, env.runId, id) by { hide CommandStep, RowAgrees; }
    if id in w.state.core.tasks { RowFacts(w.state.core.tasks, v'.tasks, env.runId, id) by { hide CommandStep,
        RowAgrees; } }
  }

  /** The state a command leaves is that of its events. */
  lemma SameOutcome(v: View, v': View, env: Env, ld: Loaded, req: Request, w: Work, w': Work)
    requires CommandStep(v, v', env, ld, req, w) && Final(BaseOf(ld), env, w')
             && w'.events == Execute(env, ld, req).events
    ensures w.state.core == w'.state.core && w.events == w'.events
  {
    FinalCore(BaseOf(ld), env, w) by { hide LoadedOk, Execute, Final; }
    FinalCore(BaseOf(ld), env, w') by { hide LoadedOk, Execute, Final; }
    hide LoadedOk, Execute, Final, FoldCore, Replay, Mutated;
  }

  // ------------------------------------------------------------------ completing a task

  lemma {:induction false} OutputsAfter(h: seq<Event>, more: seq<Event>, x: StepId, output: Json)
    requires more != [] && forall i :: 1 <= i < |more| ==> Completion(more[i]).None?
    requires Completion(more[0]) == Some((x, output))
    ensures CompletedOutputs(h + more) == CompletedOutputs(h)[x := output]
  {
    var n := |h + more|;
    assert (h + more)[n - 1] == more[|more| - 1];
    assert (h + more)[..n - 1] == h + more[..|more| - 1];
    if |more| > 1 {
      OutputsAfter(h, more[..|more| - 1], x, output);
    } else {
      assert h + more[..0] == h;
    }
  }

  lemma ConsequencesCompleteNothing(ld: Loaded, req: Request, events: seq<Event>, mutations: seq<Mutation>)
    requires WritesOnly(ld, req, events, mutations)
    ensures events != [] && Answers(ld, req, events[0].payload)
    ensures forall i :: 1 <= i < |events| ==> Completion(events[i]).None?
  {
    hide Touches, Answers;
    forall i | 1 <= i < |events| ensures Completion(events[i]).None? {
      assert Consequent(events[i]);
    }
  }

  /** An accepted completion records exactly the output that was handed in, or null for an absent one, as the first
      event it appends; a forward step has that output from then on, and the task is completed. */
  lemma CompletionRecords(defs: Definitions, ops: seq<Op>, op: Op)
    requires Registered(defs) && op.Submit? && op.req.CompleteRequest?
    requires Allowed(Exec(defs, ops), op) && Perform(defs, Exec(defs, ops), op).Ok?
    ensures var db, db', id := Exec(defs, ops), Exec(defs, ops + [op]), op.req.task;
            && id in db.tasks && id in db'.tasks
            && var row, row' := db.tasks[id], db'.tasks[id];
            var h, h' := HistoryOf(db.history, row.runId), HistoryOf(db'.history, row.runId);
            var recorded := if op.req.output == Raw("") then Null else op.req.output;
            && h < h' && h'[|h|].payload
                   == TaskCompleted(id, row.stepId, op.req.worker, recorded, row.phase.Compensation?)
            && row'.status.Completed? && row'.attempt == row.attempt && row'.lastError == row.lastError
            && CompletedOutputs(h') ==
               if row.phase.Forward? then CompletedOutputs(h)[row.stepId := recorded] else CompletedOutputs(h)
  {
    hide Exec, Registered, Allowed, Perform;
    var env, ld, w := AcceptedStep(defs, ops, op);
    var db, db', id := Exec(defs, ops), Exec(defs, ops + [op]), op.req.task;
    var r := db.tasks[id].runId;
    var v, v' := ViewOf(db, r), ViewOf(db', r);
    assert id in v.tasks && v.tasks[id] == db.tasks[id];
    CommandRow(v, v', env, ld, op.req, w, id) by { hide CommandStep; }
    CommandWrites(v, v', env, ld, op.req, w) by { hide CommandStep, WritesOnly; }
    ConsequencesCompleteNothing(ld, op.req, w.events, w.mutations) by { hide CommandStep, WritesOnly; }
    CompletionRow(v, v', env, ld, op.req, w, id) by { hide CommandStep; }
    hide CommandStep, WritesOnly, HistoryOf, CompletedOutputs;
    var h, h', t := v.history, v'.history, ld.state.core.tasks[id];
    assert h'[|h|] == w.events[0];
    CompletionOutputs(h, w.events, db.tasks[id].stepId, w.events[0].payload);
  }

  lemma CompletionOutputs(h: seq<Event>, more: seq<Event>, x: StepId, p: Payload)
    requires more != [] && more[0].payload == p && p.TaskCompleted? && p.stepId == x
    requires forall i :: 1 <= i < |more| ==> Completion(more[i]).None?
    ensures CompletedOutputs(h + more) ==
            if p.compensation then CompletedOutputs(h) else CompletedOutputs(h)[x := p.output]
  {
    if p.compensation { NoOutputs(h, more); } else { OutputsAfter(h, more, x, p.output); }
  }

  lemma {:induction false} NoOutputs(h: seq<Event>, more: seq<Event>)
    requires forall i :: 0 <= i < |more| ==> Completion(more[i]).None?
    ensures CompletedOutputs(h + more) == CompletedOutputs(h)
  {
    if more == [] {
      assert h + more == h;
    } else {
      NoOutputs(h, more[..|more| - 1]);
      assert (h + more)[..|h + more| - 1] == h + more[..|more| - 1];
    }
  }

  lemma CompletionRow(v: View, v': View, env: Env, ld: Loaded, req: Request, w: Work, id: TaskId)
    requires CommandStep(v, v', env, ld, req, w) && req.CompleteRequest? && req.task == id && id in v.tasks
    ensures id in v'.tasks && v'.tasks[id].status.Completed? && v'.tasks[id].attempt == v.tasks[id].attempt
    ensures v'.tasks[id].lastError == v.tasks[id].lastError
  {
    CommandRow(v, v', env, ld, req, w, id) by { hide CommandStep; }
    CompletionWork(v, v', env, ld, req, w);
    hide CommandStep;
    CompletedTask(env, ld, req.worker, id, req.output) by { hide RowAgrees; }
  }

  lemma CompletionWork(v: View, v': View, env: Env, ld: Loaded, req: Request, w: Work)
    requires CommandStep(v, v', env, ld, req, w) && req.CompleteRequest?
    ensures LoadedOk(env, ld) && LeaseCheck(ld, req.worker, req.task).None?
            && ld.state.core.tasks[req.task].kind.Activity?
    ensures CompleteWork(env, ld, req.worker, req.task, req.output).Ok?
    ensures w.state.core == CompleteWork(env, ld, req.worker, req.task, req.output).value.state.core
  {
    hide LoadedOk, CompleteWork, Final, Replay, Mutated;
    assert Execute(env, ld, req).Append?;
    CheckedTask(ld, req.worker, req.task);
    CompleteWorkFinal(env, ld, req.worker, req.task, req.output) by { hide CommandStep, Execute, LeaseCheck; }
    SameOutcome(v, v', env, ld, req, w, CompleteWork(env, ld, req.worker, req.task, req.output).value)
      by { hide CommandStep, LeaseCheck; }
  }

  // ------------------------------------------------------------------ failing a task

  lemma FailureWork(v: View, v': View, env: Env, ld: Loaded, req: Request, w: Work)
    requires CommandStep(v, v', env, ld, req, w) && req.FailRequest?
    ensures LoadedOk(env, ld) && LeaseCheck(ld, req.worker, req.task).None?
            && ld.state.core.tasks[req.task].kind.Activity?
    ensures Replay(ld.def, ld.run, ld.events) == Ok(ld.state) && ld.events == v.history
    ensures FailTask(env, ld, req.worker, req.task, req.error, req.retryable).Append?
    ensures Execute(env, ld, req) == FailTask(env, ld, req.worker, req.task, req.error, req.retryable)
  {
    hide LoadedOk, FailEvent, FinalFailureWork, RetryWork, Retries, Final, Replay, Mutated;
    assert Execute(env, ld, req).Append?;
    CheckedTask(ld, req.worker, req.task);
  }

  /** The task goes on to its next attempt. */
  predicate TaskRetries(t: TaskState, t': TaskState, error: string, due: Time) {
    t'.status.Available? && t'.attempt == t.attempt + 1 && t'.error == error && t'.availableAt == due
  }

  lemma RetryLeaves(env: Env, ld: Loaded, worker: string, id: TaskId, error: string)
    requires LoadedOk(env, ld) && LeaseCheck(ld, worker, id).None? && ld.state.core.tasks[id].kind.Activity?
    requires Retries(ld, id, ld.state.core.cancelRequested, true)
    ensures ld.state.core.tasks[id].stepId in ld.def.steps && FailEvent(env, ld, worker, id, error).Ok?
    ensures RetryWork(env, ld, FailEvent(env, ld, worker, id, error).value, id, error).Ok?
    ensures var t, s := ld.state.core.tasks[id],
              RetryWork(env, ld, FailEvent(env, ld, worker, id, error).value, id, error).value.state.core;
            && id in s.tasks
            && TaskRetries(t, s.tasks[id], error,
                           env.now + BackoffForAttempt(ld.def.steps[t.stepId].retry.Normalize(), t.attempt))
  {
    hide LoadedOk, FailEvent, RetryWork, Retries, LeaseCheck, Chained, Moves, Open, BackoffForAttempt;
    var w := RetryParts(env, ld, worker, id, error);
  }

  lemma RetriedTask(v: View, v': View, env: Env, ld: Loaded, req: Request, w: Work)
    requires CommandStep(v, v', env, ld, req, w) && req.FailRequest? && req.task in ld.state.core.tasks
    requires !ForGood(ld, req.task, req.retryable)
    ensures var t := ld.state.core.tasks[req.task];
            && t.stepId in ld.def.steps && req.task in w.state.core.tasks
            && TaskRetries(t, w.state.core.tasks[req.task], req.error,
                           env.now + BackoffForAttempt(ld.def.steps[t.stepId].retry.Normalize(), t.attempt))
  {
    FailureWork(v, v', env, ld, req, w) by { hide CommandStep, ForGood; }
    RetriesUnlessForGood(ld, req.task, req.retryable) by { hide CommandStep; }
    RetriesIfRetryable(ld, req.task, req.retryable) by { hide CommandStep, ForGood; }
    hide CommandStep, LoadedOk, FailEvent, FinalFailureWork, RetryWork, Retries, ForGood, LeaseCheck, Final, FailTask,
         BackoffForAttempt;
    RetryLeaves(env, ld, req.worker, req.task, req.error);
    RetryFinal(env, ld, req.worker, req.task, req.error);
    FailedIsRetried(env, ld, req);
    SameOutcome(v, v', env, ld, req, w,
                RetryWork(env, ld, FailEvent(env, ld, req.worker, req.task, req.error).value, req.task,
                          req.error).value);
  }

  lemma FailedIsRetried(env: Env, ld: Loaded, req: Request)
    requires req.FailRequest? && req.task in ld.state.core.tasks && LeaseCheck(ld, req.worker, req.task).None?
    requires Retries(ld, req.task, ld.state.core.cancelRequested, req.retryable)
    requires ld.state.core.tasks[req.task].stepId in ld.def.steps
    requires FailEvent(env, ld, req.worker, req.task, req.error).Ok?
    requires RetryWork(env, ld, FailEvent(env, ld, req.worker, req.task, req.error).value, req.task, req.error).Ok?
    ensures Execute(env, ld, req).Append?
    ensures Execute(env, ld, req).events ==
            RetryWork(env, ld, FailEvent(env, ld, req.worker, req.task, req.error).value, req.task,
                      req.error).value.events
  {
    FailEventWrites(env, ld, req.worker, req.task, req.error, req.retryable) by { hide FailEvent, WritesOnly,
        LeaseCheck, Retries, RetryWork; }
    hide FailEvent, RetryWork, FinalFailureWork, Retries, LeaseCheck;
  }

  lemma FailedIsFinal(env: Env, ld: Loaded, req: Request)
    requires req.FailRequest? && req.task in ld.state.core.tasks && LeaseCheck(ld, req.worker, req.task).None?
    requires !Retries(ld, req.task, ld.state.core.cancelRequested, req.retryable)
    requires FailEvent(env, ld, req.worker, req.task, req.error).Ok?
    requires FinalFailureWork(env, ld, FailEvent(env, ld, req.worker, req.task, req.error).value, req.task,
                              req.error).Ok?
    ensures Execute(env, ld, req).Append?
    ensures Execute(env, ld, req).events ==
            FinalFailureWork(env, ld, FailEvent(env, ld, req.worker, req.task, req.error).value, req.task,
                             req.error).value.events
  {
    FailEventWrites(env, ld, req.worker, req.task, req.error, req.retryable)
      by { hide FailEvent, WritesOnly, LeaseCheck, Retries, FinalFailureWork; }
    hide FailEvent, RetryWork, FinalFailureWork, Retries, LeaseCheck;
  }

  lemma LostTask(v: View, v': View, env: Env, ld: Loaded, req: Request, w: Work)
    requires CommandStep(v, v', env, ld, req, w) && req.FailRequest? && req.task in ld.state.core.tasks
    requires ForGood(ld, req.task, req.retryable)
    ensures req.task in w.state.core.tasks
            && TaskFails(ld.state.core.tasks[req.task], w.state.core.tasks[req.task], req.error)
  {
    FailureWork(v, v', env, ld, req, w) by { hide CommandStep; }
    RetriesUnlessForGood(ld, req.task, req.retryable);
    hide CommandStep, LoadedOk, FailEvent, FinalFailureWork, Retries, ForGood, LeaseCheck, Final;
    FinalFailureFinal(env, ld, req.worker, req.task, req.error);
    FailedTask(env, ld, req.worker, req.task, req.error);
    FailedIsFinal(env, ld, req);
    SameOutcome(v, v', env, ld, req, w,
                FinalFailureWork(env, ld, FailEvent(env, ld, req.worker, req.task, req.error).value, req.task,
                                 req.error).value);
  }

  /** Whether the task of the row is to be tried again, by row, history and definition. */
  predicate TriesAgain(def: Definition, h: seq<Event>, row: TaskRecord, retryable: bool)
    requires row.stepId in def.steps
  {
    && row.phase.Forward? && retryable && !CancelledBy(h)
    && row.attempt < def.steps[row.stepId].retry.maxAttempts
  }

  lemma TriesUnlessForGood(env: Env, ld: Loaded, row: TaskRecord, id: TaskId, retryable: bool)
    requires LoadedOk(env, ld) && Replay(ld.def, ld.run, ld.events) == Ok(ld.state)
    requires id in ld.state.core.tasks && RowAgrees(ld.state.core.tasks[id], row)
    ensures row.stepId in ld.def.steps && ld.def.steps[row.stepId].retry.Normalize() == ld.def.steps[row.stepId].retry
    ensures TriesAgain(ld.def, ld.events, row, retryable) <==> !ForGood(ld, id, retryable)
  {
    CancelledLoad(ld) by { hide LoadedOk; }
    StepOfTask(ld.def, ld.state.core, id) by { hide Inv, Committed, RowsAgree, Fresh, ValidDefinition, Replay; }
    hide Inv, Committed, RowsAgree, Fresh, Replay, CancelledBy, Filed, DependenciesKnown, AllSound, Ranks;
    assert IsNormalized(ld.def.steps[row.stepId].retry);
  }

  /** An accepted failure report is followed by another attempt, after the delay of the policy, if and only if the
      task goes forward, the failure is not declared final, nobody has asked to cancel the run, and an attempt is
      left; otherwise the task has failed. */
  lemma FailureDecides(defs: Definitions, ops: seq<Op>, op: Op)
    requires Registered(defs) && op.Submit? && op.req.FailRequest?
    requires Allowed(Exec(defs, ops), op) && Perform(defs, Exec(defs, ops), op).Ok?
    ensures var db, db', id := Exec(defs, ops), Exec(defs, ops + [op]), op.req.task;
            && id in db.tasks && id in db'.tasks
            && var row, row' := db.tasks[id], db'.tasks[id];
            && row.runId in db.runs && db.runs[row.runId].workflowName in defs
            && var def, h, h' := defs[db.runs[row.runId].workflowName], HistoryOf(db.history, row.runId),
                   HistoryOf(db'.history, row.runId);
            && row.stepId in def.steps
            && h < h' && h'[|h|].payload
                   == TaskFailed(id, row.stepId, op.req.worker, op.req.error, row.phase.Compensation?)
            && row'.lastError == op.req.error
            && if TriesAgain(def, h, row, op.req.retryable)
               then && row'.status.Available? && row'.attempt == row.attempt + 1
                    && row'.availableAt == op.now + BackoffForAttempt(def.steps[row.stepId].retry, row.attempt)
               else row'.status.Failed? && row'.attempt == row.attempt
  {
    hide Exec, Registered, Allowed, Perform;
    var env, ld, w := AcceptedStep(defs, ops, op);
    var db, db', id := Exec(defs, ops), Exec(defs, ops + [op]), op.req.task;
    var r := db.tasks[id].runId;
    var v, v' := ViewOf(db, r), ViewOf(db', r);
    assert id in v.tasks && v.tasks[id] == db.tasks[id];
    CommandRow(v, v', env, ld, op.req, w, id) by { hide CommandStep; }
    CommandWrites(v, v', env, ld, op.req, w) by { hide CommandStep, WritesOnly; }
    FailureWork(v, v', env, ld, op.req, w) by { hide CommandStep; }
    ConsequencesCompleteNothing(ld, op.req, w.events, w.mutations) by { hide CommandStep, WritesOnly; }
    hide CommandStep, WritesOnly, LoadedOk, HistoryOf, BackoffForAttempt, Replay, LeaseCheck, FailTask, TriesAgain;
    TriesUnlessForGood(env, ld, v.tasks[id], id, op.req.retryable) by { hide RowAgrees; }
    hide ForGood;
    if TriesAgain(ld.def, v.history, v.tasks[id], op.req.retryable) {
      RetriedTask(v, v', env, ld, op.req, w);
    } else {
      LostTask(v, v', env, ld, op.req, w);
    }
    assert v'.history[|v.history|] == w.events[0];
    assert id in v'.tasks && v'.tasks[id] == db'.tasks[id];
  }

  // ------------------------------------------------------------------ cancelling a run

  /** The task has been revoked for `reason`. */
  predicate TaskRevoked(t: TaskState, t': TaskState, reason: string) {
    t'.status.Cancelled? && t'.attempt == t.attempt && t'.error == reason && t'.availableAt == t.availableAt
  }

  predicate RevokedOrSame(s: Core, s': Core, k: TaskId, listed: bool, reason: string) {
    k in s.tasks ==>
      && k in s'.tasks
      && if listed && s.tasks[k].status.Open() then TaskRevoked(s.tasks[k], s'.tasks[k], reason)
             else s'.tasks[k] == s.tasks[k]
  }

  lemma CancelOneRevokes(env: Env, ld: Loaded, w: Work, id: TaskId, reason: string, k: TaskId)
    requires CancelOne(env, ld, w, id, reason).Ok?
    ensures RevokedOrSame(w.state.core, CancelOne(env, ld, w, id, reason).value.state.core, k, k == id, reason)
  {
    hide ApplyRun;
  }

  lemma {:induction false} CancelTasksRevoke(env: Env, ld: Loaded, w: Work, list: seq<TaskId>, reason: string,
                                             k: TaskId)
    requires CancelTasks(env, ld, w, list, reason).Ok?
    ensures RevokedOrSame(w.state.core, CancelTasks(env, ld, w, list, reason).value.state.core, k, k in list, reason)
  {
    hide CancelOne;
    if list != [] {
      var init, id := list[..|list| - 1], list[|list| - 1];
      CancelTasksRevoke(env, ld, w, init, reason, k);
      CancelOneRevokes(env, ld, CancelTasks(env, ld, w, init, reason).value, id, reason, k);
      assert k in list <==> k in init || k == id;
    }
  }

  lemma CancelledTask(env: Env, ld: Loaded, reason: string, k: TaskId)
    requires LoadedOk(env, ld) && !ld.run.status.Terminal() && CancelWork(env, ld, reason).Ok?
    ensures RevokedOrSame(ld.state.core, CancelWork(env, ld, reason).value.state.core, k, k in ld.listing, reason)
  {
    hide LoadedOk, Revoking, Good, After, CancelTasks, BeginCompensationOrFinish, Emit, NextCompensation, Fresh,
         KeepsTasks;
    var s := ld.state.core.(cancelRequested := true);
    var e := EventOf(env, Begin(ld), "", None, RunCancelRequested(reason));
    var w := After(env, Begin(ld), e, s);
    CancelRequestGood(env, ld, e, s);
    CancelTasksGood(env, ld, s, w, ld.listing, reason);
    var w' := CancelTasks(env, ld, w, ld.listing, reason).value;
    CancelTasksRevoke(env, ld, w, ld.listing, reason, k);
    RevokingParts(env, ld, s, w');
    BeginKeepsTasks(env, w');
    AfterState(env, Begin(ld), e, s);
    KeptTask(w'.state.core, CancelWork(env, ld, reason).value.state.core, k);
  }

  lemma AfterState(env: Env, w: Work, e: Event, s: Core)
    ensures After(env, w, e, s).state.core == s
  {
  }

  lemma KeptTask(s: Core, s': Core, k: TaskId)
    requires KeepsTasks(s, s')
    ensures k in s.tasks ==> k in s'.tasks && s'.tasks[k] == s.tasks[k]
  {
  }

  lemma CancellationWork(v: View, v': View, env: Env, ld: Loaded, req: Request, w: Work)
    requires CommandStep(v, v', env, ld, req, w) && req.CancelRequest?
    ensures LoadedOk(env, ld) && !ld.run.status.Terminal() && CancelWork(env, ld, req.reason).Ok?
    ensures w.state.core == CancelWork(env, ld, req.reason).value.state.core
    ensures forall k :: k in ld.listing <==> k in v.tasks
  {
    ListingIs(env, ld) by { hide Execute, Final, Replay, Mutated; }
    hide LoadedOk, CancelWork, Final, Replay, Mutated;
    assert Execute(env, ld, req).Append?;
    CancelWorkFinal(env, ld, req.reason) by { hide CommandStep, Execute; }
    SameOutcome(v, v', env, ld, req, w, CancelWork(env, ld, req.reason).value) by { hide CommandStep; }
  }

  lemma ListingIs(env: Env, ld: Loaded)
    requires LoadedOk(env, ld)
    ensures forall k :: k in ld.listing <==> k in ld.tasks
  {
    hide Inv, Committed, Fresh, ValidDefinition, RowsAgree;
  }

  lemma CancelledRow(v: View, v': View, env: Env, ld: Loaded, req: Request, w: Work, k: TaskId)
    requires CommandStep(v, v', env, ld, req, w) && req.CancelRequest? && k in v.tasks
    ensures k in v'.tasks
    ensures v.tasks[k].status.Open() ==>
              v'.tasks[k].status.Cancelled? && v'.tasks[k].lastError == req.reason
                && v'.tasks[k].attempt == v.tasks[k].attempt
    ensures !v.tasks[k].status.Open() ==>
              && v'.tasks[k].status == v.tasks[k].status && v'.tasks[k].lastError == v.tasks[k].lastError
              && v'.tasks[k].attempt == v.tasks[k].attempt
  {
    CommandRow(v, v', env, ld, req, w, k) by { hide CommandStep; }
    CancellationWork(v, v', env, ld, req, w);
    hide CommandStep, LoadedOk, CancelWork;
    CancelledTask(env, ld, req.reason, k) by { hide RowAgrees; }
  }

  /** An accepted cancel request for a run that has not ended records the request as the first event it appends, and
      revokes exactly the open tasks, giving them its reason. A run that has ended is left alone. */
  lemma CancellationRevokes(defs: Definitions, ops: seq<Op>, op: Op)
    requires Registered(defs) && op.Submit? && op.req.CancelRequest?
    requires Allowed(Exec(defs, ops), op) && Perform(defs, Exec(defs, ops), op).Ok?
    ensures var db, db', r := Exec(defs, ops), Exec(defs, ops + [op]), op.req.run;
            && r in db.runs && r in db'.runs
            && (db.runs[r].status.Terminal() ==> ViewOf(db', r) == ViewOf(db, r))
            && (!db.runs[r].status.Terminal() ==>
                  var h, h' := HistoryOf(db.history, r), HistoryOf(db'.history, r);
                  && h < h' && h'[|h|].payload == RunCancelRequested(op.req.reason)
                  && db'.runs[r].cancelReason == op.req.reason
                  && (db'.runs[r].status.Cancelled? || db'.runs[r].status.Compensating?)
                  && forall k :: k in db.tasks && db.tasks[k].runId == r ==>
                       && k in db'.tasks && db'.tasks[k].attempt == db.tasks[k].attempt
                       && if db.tasks[k].status.Open()
                          then db'.tasks[k].status.Cancelled? && db'.tasks[k].lastError == op.req.reason
                          else && db'.tasks[k].status == db.tasks[k].status
                               && db'.tasks[k].lastError == db.tasks[k].lastError)
  {
    hide Exec, Registered, DbOk, Next, Load, Execute, LoadedOk, CommandStep, Command, Write, Enabled, Continues,
         ViewOf, Perform, HistoryOf;
    var db, db', r := Exec(defs, ops), Exec(defs, ops + [op]), op.req.run;
    ReachableOk(defs, ops);
    ExecSnoc(defs, ops, op);
    CancelKnown(defs, db, op);
    var env := Env(r, op.now, op.uuid);
    var ld, w0 := CommandCommits(defs, db, op.req, op.listing, op.now, op.uuid);
    LoadedParts(defs, db, r, op.listing);
    CancelAppendsExactly(env, ld, op.req);
    if db.runs[r].status.Terminal() {
      NextElsewhere(defs, db, op, r);
    } else {
      CancelledView(defs, ops, op, env, ld);
    }
  }

  lemma CancelKnown(defs: Definitions, db: Db, op: Op)
    requires op.Submit? && op.req.CancelRequest? && Perform(defs, db, op).Ok?
    ensures op.req.run in db.runs && Locate(db, op.req) == Ok(op.req.run)
  {
    hide LoadFrom, Write, Execute;
  }

  lemma CancelAppendsExactly(env: Env, ld: Loaded, req: Request)
    requires LoadedOk(env, ld) && req.CancelRequest?
    ensures Execute(env, ld, req).Append? <==> !ld.run.status.Terminal()
  {
    hide LoadedOk, CancelWork, Final;
    if !ld.run.status.Terminal() { CancelWorkFinal(env, ld, req.reason); }
  }

  lemma CancelledView(defs: Definitions, ops: seq<Op>, op: Op, env: Env, ld: Loaded)
    requires Registered(defs) && op.Submit? && op.req.CancelRequest? && Allowed(Exec(defs, ops), op)
    requires Locate(Exec(defs, ops), op.req) == Ok(op.req.run) && op.req.run in Exec(defs, ops).runs
    requires env == Env(op.req.run, op.now, op.uuid) && Load(defs, Exec(defs, ops), op.req.run, op.listing) == Ok(ld)
    requires Execute(env, ld, op.req).Append?
    ensures var db, db', r := Exec(defs, ops), Exec(defs, ops + [op]), op.req.run;
            && r in db'.runs
            && var h, h' := HistoryOf(db.history, r), HistoryOf(db'.history, r);
            && h < h' && h'[|h|].payload == RunCancelRequested(op.req.reason)
            && db'.runs[r].cancelReason == op.req.reason
            && (db'.runs[r].status.Cancelled? || db'.runs[r].status.Compensating?)
            && forall k :: k in db.tasks && db.tasks[k].runId == r ==>
                 && k in db'.tasks && db'.tasks[k].attempt == db.tasks[k].attempt
                 && if db.tasks[k].status.Open()
                    then db'.tasks[k].status.Cancelled? && db'.tasks[k].lastError == op.req.reason
                    else db'.tasks[k].status == db.tasks[k].status && db'.tasks[k].lastError == db.tasks[k].lastError
  {
    hide Exec, Registered, DbOk, Next, Load, Execute, LoadedOk, CommandStep, Enabled, WritesOnly, Locate;
    var db, db', r := Exec(defs, ops), Exec(defs, ops + [op]), op.req.run;
    ReachableOk(defs, ops);
    ExecSnoc(defs, ops, op);
    assert SubmitsTo(defs, db, op, r);
    var w := SubmitStep(defs, db, op, r);
    var v, v' := ViewOf(db, r), ViewOf(db', r);
    CommandWrites(v, v', env, ld, op.req, w);
    ConsequencesCompleteNothing(ld, op.req, w.events, w.mutations);
    assert v'.history[|v.history|] == w.events[0];
    CancelReasonSet(v, v', env, ld, op.req, w);
    assert CancelledBy(v'.history) by { assert v'.history[|v.history|].payload.RunCancelRequested?; }
    AfterCancel(defs, ops + [op], r);
    forall k | k in db.tasks && db.tasks[k].runId == r
      ensures k in db'.tasks && db'.tasks[k].attempt == db.tasks[k].attempt
      ensures if db.tasks[k].status.Open()
              then db'.tasks[k].status.Cancelled? && db'.tasks[k].lastError == op.req.reason
              else db'.tasks[k].status == db.tasks[k].status && db'.tasks[k].lastError == db.tasks[k].lastError
    {
      assert k in v.tasks && v.tasks[k] == db.tasks[k];
      CancelledRow(v, v', env, ld, op.req, w, k);
      assert v'.tasks[k] == db'.tasks[k];
    }
  }

  lemma CancelReasonSet(v: View, v': View, env: Env, ld: Loaded, req: Request, w: Work)
    requires CommandStep(v, v', env, ld, req, w) && req.CancelRequest?
    ensures v'.run.cancelReason == req.reason
  {
    hide LoadedOk, Execute, Final, Replay, Mutated;
    SummaryTexts(env, ld, req);
  }

  // ------------------------------------------------------------------ firing a timer

  lemma FiringWork(v: View, v': View, env: Env, ld: Loaded, req: Request, w: Work)
    requires CommandStep(v, v', env, ld, req, w) && req.FireRequest?
    ensures LoadedOk(env, ld) && TimerDue(ld, req.task, env.now) && FireWork(env, ld, req.task).Ok?
    ensures w.state.core == FireWork(env, ld, req.task).value.state.core
  {
    hide LoadedOk, FireWork, Final, Replay, Mutated;
    assert Execute(env, ld, req).Append?;
    FireWorkFinal(env, ld, req.task) by { hide CommandStep, Execute; }
    SameOutcome(v, v', env, ld, req, w, FireWork(env, ld, req.task).value) by { hide CommandStep; }
  }

  lemma FiredRow(v: View, v': View, env: Env, ld: Loaded, req: Request, w: Work)
    requires CommandStep(v, v', env, ld, req, w) && req.FireRequest? && req.task in v.tasks
    ensures req.task in v'.tasks && v'.tasks[req.task].status.Completed?
            && v'.tasks[req.task].attempt == v.tasks[req.task].attempt
  {
    CommandRow(v, v', env, ld, req, w, req.task) by { hide CommandStep; }
    FiringWork(v, v', env, ld, req, w);
    hide CommandStep, LoadedOk, FireWork;
    FiredTask(env, ld, req.task) by { hide RowAgrees; }
  }

  lemma FireAppendsExactly(env: Env, ld: Loaded, req: Request, row: TaskRecord)
    requires LoadedOk(env, ld) && req.FireRequest? && req.task in ld.state.core.tasks
             && RowAgrees(ld.state.core.tasks[req.task], row)
    ensures Execute(env, ld, req).Append? <==> row.kind.Timer? && row.status.Available? && row.availableAt <= env.now
    ensures !Execute(env, ld, req).Rejected?
  {
    hide LoadedOk, FireWork, Final;
    if TimerDue(ld, req.task, env.now) { FireWorkFinal(env, ld, req.task); }
  }

  /** A request to fire is always accepted for a task there is. It changes the run exactly if the task is a timer that
      waits and is due: then the firing is the first event appended, and the step completes with null. */
  lemma TimerFires(defs: Definitions, ops: seq<Op>, op: Op)
    requires Registered(defs) && op.Submit? && op.req.FireRequest? && Allowed(Exec(defs, ops), op)
    requires op.req.task in Exec(defs, ops).tasks
    ensures var db, db', id := Exec(defs, ops), Exec(defs, ops + [op]), op.req.task;
            && var row, r := db.tasks[id], db.tasks[id].runId;
            && r in db.runs && r in db'.runs
            && if row.kind.Timer? && row.status.Available? && row.availableAt <= op.now
               then
                 && id in db'.tasks && db'.tasks[id].status.Completed? && db'.tasks[id].attempt == row.attempt
                 && var h, h' := HistoryOf(db.history, r), HistoryOf(db'.history, r);
                 && h < h' && h'[|h|].payload == TimerFired(id, row.stepId)
                 && CompletedOutputs(h') == CompletedOutputs(h)[row.stepId := Null]
               else ViewOf(db', r) == ViewOf(db, r)
  {
    hide Exec, Registered, DbOk, RunOk, Next, Load, Execute, LoadedOk, CommandStep, Command, Write, Enabled,
         Continues, ViewOf, HistoryOf,
         CompletedOutputs, RowAgrees;
    var db, id := Exec(defs, ops), op.req.task;
    ReachableOk(defs, ops);
    ExecSnoc(defs, ops, op);
    RunOfTask(defs, db, id);
    var r := db.tasks[id].runId;
    var env := Env(r, op.now, op.uuid);
    var ld, w0 := CommandCommits(defs, db, op.req, op.listing, op.now, op.uuid);
    LoadedParts(defs, db, r, op.listing);
    LoadedAgrees(env, ld, id);
    FireAppendsExactly(env, ld, op.req, db.tasks[id]);
    if SubmitsTo(defs, db, op, r) {
      FiredView(defs, ops, op, env, ld);
    } else {
      NextElsewhere(defs, db, op, r);
    }
  }

  lemma LoadedAgrees(env: Env, ld: Loaded, id: TaskId)
    requires LoadedOk(env, ld) && id in ld.tasks
    ensures id in ld.state.core.tasks && RowAgrees(ld.state.core.tasks[id], ld.tasks[id])
  {
    hide Inv, Committed, Fresh, ValidDefinition, RowsAgree, RowAgrees;
    RowFacts(ld.state.core.tasks, ld.tasks, env.runId, id);
  }

  lemma FiredView(defs: Definitions, ops: seq<Op>, op: Op, env: Env, ld: Loaded)
    requires Registered(defs) && op.Submit? && op.req.FireRequest? && op.req.task in Exec(defs, ops).tasks
    requires var r := Exec(defs, ops).tasks[op.req.task].runId;
             && SubmitsTo(defs, Exec(defs, ops), op, r) && env == Env(r, op.now, op.uuid)
             && Load(defs, Exec(defs, ops), r, op.listing) == Ok(ld)
    ensures var db, db', id := Exec(defs, ops), Exec(defs, ops + [op]), op.req.task;
            && var row, r := db.tasks[id], db.tasks[id].runId;
            && r in db.runs && r in db'.runs
            && id in db'.tasks && db'.tasks[id].status.Completed? && db'.tasks[id].attempt == row.attempt
            && var h, h' := HistoryOf(db.history, r), HistoryOf(db'.history, r);
            && h < h' && h'[|h|].payload == TimerFired(id, row.stepId)
            && CompletedOutputs(h') == CompletedOutputs(h)[row.stepId := Null]
  {
    hide Exec, Registered, DbOk, Next, Load, Execute, LoadedOk, CommandStep, Enabled, WritesOnly, CompletedOutputs;
    var db, db', id := Exec(defs, ops), Exec(defs, ops + [op]), op.req.task;
    var r := db.tasks[id].runId;
    ReachableOk(defs, ops);
    ExecSnoc(defs, ops, op);
    var w := SubmitStep(defs, db, op, r);
    var v, v' := ViewOf(db, r), ViewOf(db', r);
    assert id in v.tasks && v.tasks[id] == db.tasks[id];
    CommandRow(v, v', env, ld, op.req, w, id);
    CommandWrites(v, v', env, ld, op.req, w);
    ConsequencesCompleteNothing(ld, op.req, w.events, w.mutations);
    assert v'.history[|v.history|] == w.events[0];
    FiredRow(v, v', env, ld, op.req, w);
    assert v'.tasks[id] == db'.tasks[id];
    OutputsAfter(v.history, w.events, db.tasks[id].stepId, Null);
  }
}
