/** When two compensations of a run can be open at once. */
module Overlap {
  import opened Prelude
  import opened Workflow
  import opened History
  import opened Engine
  import opened Reducer
  import opened Invariant
  import opened Chronicle
  import opened Commands
  import opened Tracking
  import opened Settled
  import opened CommandProofs
  import opened CancelProofs
  import opened Tables
  import opened Runs
  import opened System
  import opened Operations
  import opened Histories
  import opened Guarantees
  import opened Footprint
  import opened Steps

  predicate OpenCompensation(s: Core, id: TaskId) {
    Open(s, id) && s.tasks[id].phase.Compensation?
  }

  ghost predicate AtMostOne(s: Core) {
    forall j, k :: OpenCompensation(s, j) && OpenCompensation(s, k) ==> j == k
  }

  /** Tasks are as before, except that open compensation `id` has been added. */
  predicate AddsOne(s: Core, s': Core, id: TaskId) {
    && id !in s.tasks && id in s'.tasks && s'.tasks == s.tasks[id := s'.tasks[id]]
    && OpenCompensation(s', id) && s'.tasks[id].status.Available?
  }

  lemma AddedOverlaps(s: Core, s': Core, id: TaskId)
    requires AddsOne(s, s', id)
    ensures AtMostOne(s') <==> !HasOpen(s, Compensation)
  {
    if k :| k in s.tasks && s.tasks[k].phase == Compensation && s.tasks[k].status.Open() {
      assert OpenCompensation(s', k) && OpenCompensation(s', id);
    } else {
      assert forall j :: OpenCompensation(s', j) ==> j == id || OpenCompensation(s, j);
    }
  }

  /** Going forward, a run has no compensation tasks. */
  lemma NoCompensations(def: Definition, s: Core)
    requires Inv(def, s) && !s.compensating
    ensures forall id :: id in s.tasks ==> s.tasks[id].phase.Forward?
  {
    hide OrderOk;
    forall id | id in s.tasks ensures s.tasks[id].phase.Forward? {
      assert TaskOk(s, id);
      assert StepOk(def, s, s.tasks[id].stepId);
    }
  }

  // ------------------------------------------------------------------ what each stage does to the tasks

  lemma ScheduledTasks(env: Env, w: Work, step: Step, phase: TaskPhase)
    requires Schedule(env, w, step, phase).Ok? && env.Id(w.next) !in w.state.core.tasks
    ensures var s, s', id := w.state.core, Schedule(env, w, step, phase).value.state.core, env.Id(w.next);
            && id in s'.tasks && s'.tasks == s.tasks[id := s'.tasks[id]]
            && s'.tasks[id].phase == phase && s'.tasks[id].status.Available?
  {
  }

  lemma BeginTasks(env: Env, w: Work)
    requires BeginCompensationOrFinish(env, w).Ok? && Fresh(env, w.state.core.tasks, w.next)
    ensures var s, s' := w.state.core, BeginCompensationOrFinish(env, w).value.state.core;
            if NextCompensation(s).Some? then AddsOne(s, s', env.Id(w.next + 1)) else s'.tasks == s.tasks
  {
    hide Schedule, NextCompensation;
    if NextCompensation(w.state.core).Some? {
      var reason := if w.state.core.cancelRequested then w.state.run.cancelReason else w.state.run.failure;
      var w1 := Emit(env, w, "", None, RunCompensating(reason)).value;
      ScheduledTasks(env, w1, CompensationStep(w1.state.core.steps[NextCompensation(w.state.core).value].definition),
                     Compensation);
    }
  }

  lemma AdvanceTasks(env: Env, w: Work)
    requires AdvanceCompensation(env, w).Ok? && Fresh(env, w.state.core.tasks, w.next)
    requires AtMostOne(w.state.core)
    ensures AtMostOne(AdvanceCompensation(env, w).value.state.core)
  {
    hide Schedule, NextCompensation, HasOpen;
    var s, s' := w.state.core, AdvanceCompensation(env, w).value.state.core;
    if !HasOpen(s, Compensation) && NextCompensation(s).Some? {
      ScheduledTasks(env, w, CompensationStep(s.steps[NextCompensation(s).value].definition), Compensation);
      AddedOverlaps(s, s', env.Id(w.next));
    } else {
      assert s'.tasks == s.tasks;
      SameTasksSameOverlap(s, s');
    }
  }

  lemma SameTasksSameOverlap(s: Core, s': Core)
    requires s'.tasks == s.tasks
    ensures AtMostOne(s') <==> AtMostOne(s)
  {
    assert forall id :: OpenCompensation(s', id) <==> OpenCompensation(s, id);
  }

  /** Only forward tasks are added. */
  ghost predicate SameCompensations(s: Core, s': Core) {
    forall id :: OpenCompensation(s', id) <==> OpenCompensation(s, id)
  }

  lemma {:induction false} ReadyTasks(b: Base, env: Env, w: Work, list: seq<StepId>)
    requires Good(b, env, w) && Filed(b.def.steps, b.def.order)
    requires forall i :: 0 <= i < |list| ==> list[i] in w.state.core.steps
    requires !w.state.core.compensating && !w.state.core.cancelRequested
    ensures ScheduleForwardReady(env, w, list).Ok?
    ensures SameCompensations(w.state.core, ScheduleForwardReady(env, w, list).value.state.core)
  {
    hide Good, ScheduleIfReady;
    if list != [] {
      var init, x := list[..|list| - 1], list[|list| - 1];
      ReadyStepsGood(b, env, w, list);
      ReadyStepsGood(b, env, w, init);
      ReadyTasks(b, env, w, init);
      var w1 := ScheduleForwardReady(env, w, init).value;
      ReadyTask(b, env, w1, x);
    }
  }

  lemma ReadyTask(b: Base, env: Env, w: Work, x: StepId)
    requires Good(b, env, w) && ScheduleIfReady(env, w, x).Ok?
    ensures SameCompensations(w.state.core, ScheduleIfReady(env, w, x).value.state.core)
  {
    hide Chained, Tracked, Schedule, DependenciesCompleted;
    if Ready(w.state.core, x) {
      ScheduledTasks(env, w, w.state.core.steps[x].definition, Forward);
    }
  }

  lemma PostProcessOverlap(b: Base, env: Env, w: Work)
    requires Good(b, env, w) && Filed(b.def.steps, b.def.order) && AtMostOne(w.state.core)
    requires !w.state.core.compensating ==> !w.state.core.cancelRequested
    requires PostProcess(env, b.def.order, w).Ok?
    ensures AtMostOne(PostProcess(env, b.def.order, w).value.state.core)
  {
    hide AtMostOne, ScheduleForwardReady, AdvanceCompensation, AllForwardCompleted, HasOpen, RunOutput;
    if w.state.core.compensating {
      AdvanceTasks(env, w) by { hide Chained, Tracked; }
    } else {
      GoodInv(b, env, w) by { hide Good; }
      OrderCovers(b.def, w.state.core) by { hide Good; }
      hide Good;
      ReadyTasks(b, env, w, b.def.order);
      var w1 := ScheduleForwardReady(env, w, b.def.order).value;
      SameOverlap(w.state.core, w1.state.core);
      SameTasksSameOverlap(w1.state.core, PostProcess(env, b.def.order, w).value.state.core);
    }
  }

  lemma SameOverlap(s: Core, s': Core)
    requires SameCompensations(s, s')
    ensures AtMostOne(s') <==> AtMostOne(s)
  {
  }

  /** The end of a task opens no compensation. */
  lemma EndedOverlap(s: Core, s': Core, id: TaskId)
    requires Moves(s, s', id) && Open(s, id) && !Open(s', id)
    ensures AtMostOne(s) ==> AtMostOne(s')
    ensures s.tasks[id].phase.Forward? ==> SameCompensations(s, s')
    ensures s.tasks[id].phase.Compensation? && AtMostOne(s) ==> !HasOpen(s', Compensation)
  {
    assert forall k :: OpenCompensation(s', k) ==> OpenCompensation(s, k);
    if s.tasks[id].phase.Compensation? && AtMostOne(s) {
      assert OpenCompensation(s, id);
      forall k | k in s'.tasks && s'.tasks[k].phase == Compensation ensures !s'.tasks[k].status.Open() {
        assert !OpenCompensation(s', k);
      }
    }
  }

  // ------------------------------------------------------------------ the commands

  lemma CompletionOverlap(env: Env, ld: Loaded, id: TaskId, e: Event, s': Core)
    requires LoadedOk(env, ld) && Ends(env, ld, id, e, s') && Open(ld.state.core, id) && s'.tasks[id].status.Completed?
    requires AtMostOne(ld.state.core) && PostProcess(env, ld.def.order, EndedWork(env, ld, id, e, s')).Ok?
    ensures AtMostOne(PostProcess(env, ld.def.order, EndedWork(env, ld, id, e, s')).value.state.core)
  {
    EndsGood(env, ld, id, e, s') by { hide LoadedOk, Ends, AtMostOne; }
    LoadedFacts(env, ld) by { hide LoadedOk; }
    hide LoadedOk, Legal, ApplyCore, Good, PostProcess;
    OpenMeansUnfinished(ld.def, ld.state.run.status, ld.state.core, id) by { hide Inv, Committed, Ends; }
    EndedOverlap(ld.state.core, s', id) by { hide Inv, Committed, Moves, AtMostOne; }
    assert s'.compensating == ld.state.core.compensating && s'.cancelRequested == ld.state.core.cancelRequested;
    hide Inv, Committed, Moves, AtMostOne, Ends;
    PostProcessOverlap(BaseOf(ld), env, EndedWork(env, ld, id, e, s'));
  }

  lemma LoadedFacts(env: Env, ld: Loaded)
    requires LoadedOk(env, ld)
    ensures Inv(ld.def, ld.state.core) && Committed(ld.state.run.status, ld.state.core)
    ensures Filed(ld.def.steps, ld.def.order) && Fresh(env, ld.state.core.tasks, ld.run.version + 1)
  {
    hide Inv, Committed, RowsAgree, Fresh;
  }

  lemma CompleteOverlap(env: Env, ld: Loaded, worker: string, id: TaskId, output: Json)
    requires LoadedOk(env, ld) && LeaseCheck(ld, worker, id).None? && ld.state.core.tasks[id].kind.Activity?
    requires AtMostOne(ld.state.core) && CompleteWork(env, ld, worker, id, output).Ok?
    ensures AtMostOne(CompleteWork(env, ld, worker, id, output).value.state.core)
  {
    var t := ld.state.core.tasks[id];
    var e := EndEvent(env, ld, id, TaskCompleted(id, t.stepId, worker, NormalizeJson(output), t.phase.Compensation?));
    hide LoadedOk, AtMostOne, CompleteWork, Ends, EndedWork, PostProcess, EmitAndUpdate, Open;
    var s' := CompleteEnds(env, ld, worker, id, e);
    EndsGood(env, ld, id, e, s');
    CompleteWorkIs(env, ld, worker, id, output, EndedWork(env, ld, id, e, s'));
    CompletionOverlap(env, ld, id, e, s');
  }

  lemma FireOverlap(env: Env, ld: Loaded, id: TaskId)
    requires LoadedOk(env, ld) && TimerDue(ld, id, env.now) && AtMostOne(ld.state.core) && FireWork(env, ld, id).Ok?
    ensures AtMostOne(FireWork(env, ld, id).value.state.core)
  {
    var e := EndEvent(env, ld, id, TimerFired(id, ld.state.core.tasks[id].stepId));
    hide LoadedOk, AtMostOne, Ends, EndedWork, PostProcess, EmitAndUpdate, Open;
    var s' := FireEnds(env, ld, id, e);
    EndsGood(env, ld, id, e, s');
    CompletionOverlap(env, ld, id, e, s');
  }

  lemma RetryOverlap(env: Env, ld: Loaded, worker: string, id: TaskId, error: string)
    requires LoadedOk(env, ld) && LeaseCheck(ld, worker, id).None? && ld.state.core.tasks[id].kind.Activity?
    requires Retries(ld, id, ld.state.core.cancelRequested, true) && AtMostOne(ld.state.core)
    ensures FailEvent(env, ld, worker, id, error).Ok?
    ensures RetryWork(env, ld, FailEvent(env, ld, worker, id, error).value, id, error).Ok?
    ensures AtMostOne(RetryWork(env, ld, FailEvent(env, ld, worker, id, error).value, id, error).value.state.core)
  {
    hide LoadedOk, LeaseCheck, Retries, Open, Moves, Chained, FailEvent, RetryWork, UpdateRow, Row, AtMostOne;
    var w := RetryParts(env, ld, worker, id, error);
    MovedOverlap(ld.state.core, w.state.core, id);
  }

  lemma EndsParts(env: Env, ld: Loaded, id: TaskId, e: Event, s': Core)
    requires Ends(env, ld, id, e, s')
    ensures e == EndEvent(env, ld, id, e.payload) && Moves(ld.state.core, s', id)
  {
    hide Legal, Moves, ApplyCore;
  }

  lemma MovedOverlap(s: Core, s': Core, id: TaskId)
    requires Moves(s, s', id) && Open(s, id)
    ensures AtMostOne(s) ==> AtMostOne(s')
  {
    assert forall k :: OpenCompensation(s', k) ==> OpenCompensation(s, k);
  }

  lemma FailedClosed(s: Core, s': Core, id: TaskId)
    requires id in s'.tasks && s'.tasks[id].status.Failed?
    ensures !Open(s', id)
  {
  }

  /** A failure for good starts a compensation beside an open one, if the task went forward and a step is left to
      compensate. */
  lemma FailureOverlap(env: Env, ld: Loaded, worker: string, id: TaskId, error: string)
    requires LoadedOk(env, ld) && LeaseCheck(ld, worker, id).None? && ld.state.core.tasks[id].kind.Activity?
    requires AtMostOne(ld.state.core)
    requires FailEvent(env, ld, worker, id, error).Ok?
    requires FinalFailureWork(env, ld, FailEvent(env, ld, worker, id, error).value, id, error).Ok?
    ensures AtMostOne(FinalFailureWork(env, ld, FailEvent(env, ld, worker, id, error).value, id,
                                       error).value.state.core)
            <==> !(&& ld.state.core.tasks[id].phase.Forward?
                   && HasOpen(ld.state.core, Compensation) && NextCompensation(ld.state.core).Some?)
  {
    var t := ld.state.core.tasks[id];
    var e := EndEvent(env, ld, id, TaskFailed(id, t.stepId, worker, error, t.phase.Compensation?));
    hide LoadedOk, AtMostOne, Ends, Open, FinalFailureWork, FailEvent, LeaseCheck, NextCompensation, HasOpen, Moves,
         EndEvent, SameCompensations, BeginCompensationOrFinish, Fresh;
    var s' := FailEnds(env, ld, worker, id, e);
    var w := FailureBegins(env, ld, worker, id, error, e, s');
    EndsParts(env, ld, id, e, s');
    FailedClosed(ld.state.core, s', id);
    EndedOverlap(ld.state.core, s', id);
    EndKeepsNext(ld.state.core, s', id);
    BeginOverlap(env, w);
    if t.phase.Forward? { SameCompensationsSameOpen(ld.state.core, s'); }
  }

  lemma SameCompensationsSameOpen(s: Core, s': Core)
    requires SameCompensations(s, s')
    ensures HasOpen(s', Compensation) <==> HasOpen(s, Compensation)
    ensures AtMostOne(s') <==> AtMostOne(s)
  {
    if k :| k in s'.tasks && s'.tasks[k].phase == Compensation && s'.tasks[k].status.Open() {
      assert OpenCompensation(s', k);
    }
    if k :| k in s.tasks && s.tasks[k].phase == Compensation && s.tasks[k].status.Open() {
      assert OpenCompensation(s, k);
    }
  }

  lemma BeginOverlap(env: Env, w: Work)
    requires BeginCompensationOrFinish(env, w).Ok? && Fresh(env, w.state.core.tasks, w.next) && AtMostOne(w.state.core)
    ensures AtMostOne(BeginCompensationOrFinish(env, w).value.state.core)
            <==> NextCompensation(w.state.core).None? || !HasOpen(w.state.core, Compensation)
  {
    hide BeginCompensationOrFinish, NextCompensation, HasOpen, AtMostOne;
    BeginTasks(env, w);
    var s' := BeginCompensationOrFinish(env, w).value.state.core;
    if NextCompensation(w.state.core).Some? {
      AddedOverlaps(w.state.core, s', env.Id(w.next + 1));
    } else {
      SameTasksSameOverlap(w.state.core, s');
    }
  }

  /** The work with which the unwinding after a failure begins. */
  lemma FailureBegins(env: Env, ld: Loaded, worker: string, id: TaskId, error: string, e: Event, s': Core)
    returns (w: Work)
    requires LoadedOk(env, ld) && Ends(env, ld, id, e, s')
    requires var t := ld.state.core.tasks[id];
             e.payload == TaskFailed(id, t.stepId, worker, error, t.phase.Compensation?)
    requires FailEvent(env, ld, worker, id, error).Ok?
    requires FinalFailureWork(env, ld, FailEvent(env, ld, worker, id, error).value, id, error).Ok?
    ensures w.state.core == s' && Fresh(env, s'.tasks, w.next)
    ensures FinalFailureWork(env, ld, FailEvent(env, ld, worker, id, error).value, id, error)
              == BeginCompensationOrFinish(env, w)
  {
    EndsGood(env, ld, id, e, s') by { hide LoadedOk, Ends; }
    assert Fresh(env, EndedWork(env, ld, id, e, s').state.core.tasks,
                 EndedWork(env, ld, id, e, s').next) by { hide Chained, Tracked, Fresh; }
    assert ApplyCore(ld.state.core, e) == Ok(s') && id in s'.tasks && e == EndEvent(env, ld, id, e.payload);
    hide LoadedOk, Ends, ApplyCore, ApplyRun, Good, BeginCompensationOrFinish, Fresh;
    var t := ld.state.core.tasks[id];
    var failure := if t.phase.Compensation? then CompensationFailure(t.stepId, error) else error;
    var w1 := EndedWork(env, ld, id, e, s');
    w := w1.(state := w1.state.(run := w1.state.run.(failure := failure)));
  }

  lemma {:induction false} CancelledFold(s: Core, events: seq<Event>)
    requires FoldCore(s, events).Ok? && events != [] && events[0].payload.RunCancelRequested?
    ensures FoldCore(s, events).value.cancelRequested
  {
    hide ApplyCore;
    var init, e := events[..|events| - 1], events[|events| - 1];
    var before := FoldCore(s, init).value;
    CancelStays(before, e);
    if init != [] { CancelledFold(s, init); }
  }

  lemma CancelStays(s: Core, e: Event)
    requires ApplyCore(s, e).Ok?
    ensures s.cancelRequested || e.payload.RunCancelRequested? ==> ApplyCore(s, e).value.cancelRequested
  {
  }

  lemma CancelOverlap(env: Env, ld: Loaded, reason: string)
    requires LoadedOk(env, ld) && !ld.run.status.Terminal() && CancelWork(env, ld, reason).Ok?
    ensures AtMostOne(CancelWork(env, ld, reason).value.state.core)
  {
    CancelWorkFinal(env, ld, reason) by { hide LoadedOk, Final; }
    hide LoadedOk, ApplyCore, CancelTasks, BeginCompensationOrFinish;
    var w := Emit(env, Begin(ld), "", None, RunCancelRequested(reason)).value;
    CancelTasksWork(env, ld, w, ld.listing, reason);
    var w' := CancelTasks(env, ld, w, ld.listing, reason).value;
    BeginExtends(env, w');
    var w'' := CancelWork(env, ld, reason).value;
    assert w''.events[0] == w.events[0];
    hide CancelWork, Emit;
    FinalCore(BaseOf(ld), env, w'');
    CancelledFold(ld.state.core, w''.events);
    SettledOverlap(w''.state.run.status, w''.state.core);
  }

  lemma FinalCore(b: Base, env: Env, w: Work)
    requires Final(b, env, w)
    ensures FoldCore(b.state.core, w.events) == Ok(w.state.core) && Committed(w.state.run.status, w.state.core)
  {
    hide Inv, Committed, LegalFrom, Tracked, Fresh, FoldCore, Fold;
    FoldIsCoreFold(b.state, w.events);
  }

  lemma SettledOverlap(status: RunStatus, s: Core)
    requires Committed(status, s) && s.cancelRequested
    ensures AtMostOne(s)
  {
    hide NextCompensation;
  }

  // ------------------------------------------------------------------ the exact condition

  /** A forward task fails for good beside an open compensation, and a completed step is left to compensate. */
  predicate SecondFailure(ld: Loaded, req: Request) {
    && req.FailRequest? && LeaseCheck(ld, req.worker, req.task).None?
    && ld.state.core.tasks[req.task].phase.Forward?
    && ForGood(ld, req.task, req.retryable)
    && HasOpen(ld.state.core, Compensation) && NextCompensation(ld.state.core).Some?
  }

  /** A command leads from at most one open compensation to two exactly when it is a second failure. */
  lemma OverlapsExactly(env: Env, ld: Loaded, req: Request)
    requires LoadedOk(env, ld) && AtMostOne(ld.state.core) && Execute(env, ld, req).Append?
    requires (req.CompleteRequest? || req.FailRequest?) && req.task in ld.state.core.tasks ==>
               ld.state.core.tasks[req.task].kind.Activity?
    ensures FoldCore(ld.state.core, Execute(env, ld, req).events).Ok?
    ensures AtMostOne(FoldCore(ld.state.core, Execute(env, ld, req).events).value) <==> !SecondFailure(ld, req)
  {
    hide LoadedOk, AtMostOne, CompleteWork, FailEvent, FinalFailureWork, RetryWork, CancelWork, FireWork, Final,
         Retries, ForGood, HasOpen, NextCompensation, FoldCore;
    match req
    case CompleteRequest(worker, id, output) =>
      CompleteWorkFinal(env, ld, worker, id, output);
      FinalCore(BaseOf(ld), env, CompleteWork(env, ld, worker, id, output).value);
      CompleteOverlap(env, ld, worker, id, output);
    case FireRequest(id) =>
      FireWorkFinal(env, ld, id);
      FinalCore(BaseOf(ld), env, FireWork(env, ld, id).value);
      FireOverlap(env, ld, id);
    case CancelRequest(_, reason) =>
      CancelWorkFinal(env, ld, reason);
      FinalCore(BaseOf(ld), env, CancelWork(env, ld, reason).value);
      CancelOverlap(env, ld, reason);
    case FailRequest(worker, id, error, retryable) =>
      FailOverlap(env, ld, worker, id, error, retryable);
  }

  lemma FailOverlap(env: Env, ld: Loaded, worker: string, id: TaskId, error: string, retryable: bool)
    requires LoadedOk(env, ld) && AtMostOne(ld.state.core) && FailTask(env, ld, worker, id, error, retryable).Append?
    requires id in ld.state.core.tasks ==> ld.state.core.tasks[id].kind.Activity?
    ensures FoldCore(ld.state.core, FailTask(env, ld, worker, id, error, retryable).events).Ok?
    ensures AtMostOne(FoldCore(ld.state.core, FailTask(env, ld, worker, id, error, retryable).events).value)
            <==> !SecondFailure(ld, FailRequest(worker, id, error, retryable))
  {
    hide LoadedOk, AtMostOne, FailEvent, FinalFailureWork, RetryWork, Final, Retries, ForGood, HasOpen,
         NextCompensation,
         FoldCore;
    FinalFailureFinal(env, ld, worker, id, error);
    var w := FailEvent(env, ld, worker, id, error).value;
    RetriesUnlessForGood(ld, id, retryable);
    if Retries(ld, id, ld.state.core.cancelRequested, retryable) {
      RetriesIfRetryable(ld, id, retryable);
      RetryFinal(env, ld, worker, id, error);
      FinalCore(BaseOf(ld), env, RetryWork(env, ld, w, id, error).value);
      RetryOverlap(env, ld, worker, id, error);
    } else {
      FinalCore(BaseOf(ld), env, FinalFailureWork(env, ld, w, id, error).value);
      FailureOverlap(env, ld, worker, id, error);
    }
  }

  // ------------------------------------------------------------------ over whole runs of the system

  predicate OpenUnwind(v: View, id: TaskId) {
    id in v.tasks && v.tasks[id].status.Open() && v.tasks[id].phase.Compensation?
  }

  /** At most one compensation row of the run is open. */
  ghost predicate OneOpen(v: View) {
    forall j, k :: OpenUnwind(v, j) && OpenUnwind(v, k) ==> j == k
  }

  lemma OneOpenIsAtMostOne(v: View, s: Core, runId: RunId)
    requires RowsAgree(s.tasks, v.tasks, runId)
    ensures OneOpen(v) <==> AtMostOne(s)
  {
    assert forall id :: OpenUnwind(v, id) <==> OpenCompensation(s, id) by {
      forall id ensures OpenUnwind(v, id) <==> OpenCompensation(s, id) {
        if id in s.tasks { assert RowAt(s.tasks, v.tasks, runId, id); }
      }
    }
    hide RowsAgree, OpenUnwind, OpenCompensation;
  }

  /** The operation is a second failure in run `r`. */
  ghost predicate FailsSecond(defs: Definitions, db: Db, op: Op, r: RunId) {
    SubmitsTo(defs, db, op, r) && SecondFailure(LoadOf(defs, db, op, r), op.req)
  }

  lemma CommandOverlap(v: View, v': View, env: Env, ld: Loaded, req: Request, w: Work)
    requires CommandStep(v, v', env, ld, req, w) && OneOpen(v)
    ensures OneOpen(v') <==> !SecondFailure(ld, req)
  {
    CommandRows(v, v', env, ld, req, w);
    OneOpenIsAtMostOne(v, ld.state.core, env.runId) by { hide CommandStep; }
    OneOpenIsAtMostOne(v', w.state.core, env.runId) by { hide CommandStep; }
    hide LoadedOk, Execute, Final, Replay, Mutated, SecondFailure, OneOpen, AtMostOne, RowsAgree, FoldCore;
    FinalCore(BaseOf(ld), env, w);
    OverlapsExactly(env, ld, req);
  }

  lemma CommandRows(v: View, v': View, env: Env, ld: Loaded, req: Request, w: Work)
    requires CommandStep(v, v', env, ld, req, w)
    ensures RowsAgree(ld.state.core.tasks, v.tasks, env.runId) && RowsAgree(w.state.core.tasks, v'.tasks, env.runId)
  {
    hide Execute, Chained, Committed, AllProper, Mutated, Fresh, RowsAgree, Inv, ValidDefinition, Replay;
  }

  lemma OneOpenKeptByStore()
    ensures KeptByStore(v => OneOpen(v))
  {
    forall v, v', id, e {:trigger StoreStep(v, v', id, e)} | OneOpen(v) && StoreStep(v, v', id, e) ensures OneOpen(v') {
      assert forall k :: OpenUnwind(v', k) ==> OpenUnwind(v, k);
    }
  }

  lemma OneOpenAtStart()
    ensures HoldsAtStart(v => OneOpen(v))
  {
    hide ValidDefinition, Fresh, StartWork, StartedRow, OneOpen;
    forall env, def, input, w {:trigger StartStep(env, def, input, w)} | StartStep(env, def, input, w)
      ensures OneOpen(StartView(env, def, input, w))
    {
      StartOverlap(env, def, input, w);
    }
  }

  lemma StartOverlap(env: Env, def: Definition, input: Json, w: Work)
    requires StartStep(env, def, input, w)
    ensures OneOpen(StartView(env, def, input, w))
  {
    hide ValidDefinition, Fresh, StartWork, StartedRow, Final, OneOpen;
    StartWorkFinal(env, def, input);
    var b := Base(def, Initial(def, NewRun(env, def.name, NormalizeJson(input))), 0, map[]);
    StartedParts(b, env, w);
    NoCompensations(def, w.state.core) by { hide RowsAgree; }
    OneOpenIsAtMostOne(StartView(env, def, input, w), w.state.core, env.runId) by { hide Inv; }
  }

  lemma StartedParts(b: Base, env: Env, w: Work)
    requires Final(b, env, w) && w.state.run.status.Running?
    ensures Inv(b.def, w.state.core) && !w.state.core.compensating
    ensures RowsAgree(w.state.core.tasks, Mutated(b.rows, w.mutations), env.runId)
  {
    hide Inv, LegalFrom, Fold, Fresh, AllProper, Mutated, RowsAgree, AllCompleted, ReadyScheduled, NextCompensation,
         HasOpen, AnyLost;
  }

  /** In a reachable run with at most one open compensation, an operation opens a second one exactly if it is a second
      failure. */
  lemma SecondFailureExactly(defs: Definitions, ops: seq<Op>, op: Op, r: RunId)
    requires Registered(defs) && r in Exec(defs, ops).runs && OneOpen(ViewOf(Exec(defs, ops), r))
    ensures r in Exec(defs, ops + [op]).runs
    ensures OneOpen(ViewOf(Exec(defs, ops + [op]), r)) <==> !FailsSecond(defs, Exec(defs, ops), op, r)
  {
    hide Exec, Registered, DbOk, Next, SubmitsTo, SecondFailure, CommandStep, ViewOf, OneOpen;
    var db := Exec(defs, ops);
    ReachableOk(defs, ops);
    ExecSnoc(defs, ops, op);
    if SubmitsTo(defs, db, op, r) {
      SubmitIsLoaded(defs, db, op, r);
      var w := SubmitStep(defs, db, op, r);
      CommandOverlap(ViewOf(db, r), ViewOf(Next(defs, db, op), r), Env(r, op.now, op.uuid), LoadOf(defs, db, op, r),
                     op.req, w);
    } else {
      OneOpenKeptByStore();
      OtherOpKeeps(defs, db, op, r, v => OneOpen(v));
    }
  }

  /** No operation so far was a second failure in run `r`. */
  ghost predicate NoSecondFailure(defs: Definitions, ops: seq<Op>, r: RunId) {
    forall k :: 0 <= k < |ops| ==> !FailsSecond(defs, Exec(defs, ops[..k]), ops[k], r)
  }

  /** As long as there has been none, at most one compensation of the run is open. */
  lemma {:induction false} OneAtATime(defs: Definitions, ops: seq<Op>, r: RunId)
    requires Registered(defs) && r in Exec(defs, ops).runs && NoSecondFailure(defs, ops, r)
    ensures OneOpen(ViewOf(Exec(defs, ops), r))
  {
    hide Registered, DbOk, Next, FailsSecond, ViewOf, OneOpen, HoldsAtStart;
    if ops != [] {
      var init, op := ops[..|ops| - 1], ops[|ops| - 1];
      assert init + [op] == ops;
      assert !FailsSecond(defs, Exec(defs, init), op, r);
      forall k | 0 <= k < |init| ensures !FailsSecond(defs, Exec(defs, init[..k]), init[k], r) {
        assert init[..k] == ops[..k] && init[k] == ops[k];
      }
      if r in Exec(defs, init).runs {
        OneAtATime(defs, init, r);
        SecondFailureExactly(defs, init, op, r);
      } else {
        ReachableOk(defs, init);
        OneOpenAtStart();
        NewRunStarts(defs, Exec(defs, init), op, r, v => OneOpen(v));
      }
    }
  }
}
