/** Every engine command, run on a committed state, appends legal events, keeps the rows equal to replay and commits. */
module CommandProofs {
  import opened Prelude
  import opened Workflow
  import opened History
  import opened Engine
  import opened Reducer
  import opened Invariant
  import opened Chronicle
  import opened Commands
  import opened Tracking
  import opened Settled

  /** The state a command started from. */
  datatype Base = Base(def: Definition, state: RunState, version: nat, rows: map<TaskId, TaskRecord>)

  ghost predicate Good(b: Base, env: Env, w: Work) {
    && Chained(b.def, b.state, b.version, env, w)
    && Tracked(b.rows, env, w)
    && Fresh(env, w.state.core.tasks, w.next)
  }

  ghost predicate Final(b: Base, env: Env, w: Work) {
    && Good(b, env, w)
    && Committed(w.state.run.status, w.state.core)
  }

  // ------------------------------------------------------------------ single events

  /** The rows stay equal to replay when a row is updated from the replayed task. */
  lemma UpdateTracks(tasks: map<TaskId, TaskState>, table: map<TaskId, TaskRecord>, runId: RunId,
                     id: TaskId, t': TaskState, row: TaskRecord, now: Time)
    requires RowsAgree(tasks, table, runId) && id in tasks && row.id == id
    requires t'.id == tasks[id].id && t'.stepId == tasks[id].stepId && t'.kind == tasks[id].kind
             && t'.phase == tasks[id].phase
    ensures RowsAgree(tasks[id := t'], MutateRows(table, Update(UpdateRow(row, t', now))), runId)
  {
    assert RowAt(tasks, table, runId, id);
    OneRowChanges(tasks, table, runId, id, t', Columns(table[id], UpdateRow(row, t', now))) by { hide RowsAgree; }
  }

  /** The work after an event that leads to core `s'`. */
  function After(env: Env, w: Work, e: Event, s': Core): Work {
    Work(RunState(ApplyRun(w.state.run, w.state.core.cancelRequested, e), s'), w.next + 1, w.events + [e], w.mutations)
  }

  lemma EventGood(b: Base, env: Env, w: Work, e: Event, s': Core)
    requires Chained(b.def, b.state, b.version, env, w)
    requires e.runId == env.runId && e.sequence == w.next && e.createdAt == env.now
    requires Legal(w.state.core, e) && ApplyCore(w.state.core, e) == Ok(s')
    ensures Emit(env, w, e.stepId, e.taskId, e.payload) == Ok(After(env, w, e, s'))
    ensures Chained(b.def, b.state, b.version, env, After(env, w, e, s'))
  {
    hide Legal, Chained, ApplyCore;
    assert e == EventOf(env, w, e.stepId, e.taskId, e.payload);
    EmitChains(b.def, b.state, b.version, env, w, e.stepId, e.taskId, e.payload);
  }

  /** A run-level event: tasks and rows stay as they are. */
  lemma RunEventGood(b: Base, env: Env, w: Work, e: Event, s': Core)
    requires Good(b, env, w)
    requires e.runId == env.runId && e.sequence == w.next && e.createdAt == env.now
    requires Legal(w.state.core, e) && ApplyCore(w.state.core, e) == Ok(s') && s'.tasks == w.state.core.tasks
    ensures Emit(env, w, e.stepId, e.taskId, e.payload) == Ok(After(env, w, e, s'))
    ensures Good(b, env, After(env, w, e, s'))
  {
    EventGood(b, env, w, e, s') by { hide Legal, ApplyCore, Chained, Tracked, Fresh; }
    hide Legal, ApplyCore, ApplyRun, Chained, RowsAgree, Emit;
  }

  lemma MutationKeepsChain(b: Base, env: Env, w: Work, m: Mutation)
    requires Chained(b.def, b.state, b.version, env, w)
    ensures Chained(b.def, b.state, b.version, env, Mutate(w, m))
  {
    hide Inv;
  }

  /** A task event with its row update. */
  lemma TaskEventGood(b: Base, env: Env, ld: Loaded, w: Work, id: TaskId, e: Event, s': Core)
    requires Good(b, env, w) && Row(ld, id).id == id
    requires e.runId == env.runId && e.sequence == w.next && e.createdAt == env.now && e.taskId == Some(id)
    requires Legal(w.state.core, e) && ApplyCore(w.state.core, e) == Ok(s') && Moves(w.state.core, s', id)
    ensures var w' := Mutate(After(env, w, e, s'), Update(UpdateRow(Row(ld, id), s'.tasks[id], env.now)));
            EmitAndUpdate(env, ld, w, e.stepId, id, e.payload) == Ok(w') && Good(b, env, w')
  {
    EventGood(b, env, w, e, s') by { hide Legal, ApplyCore, Moves, Chained; }
    hide Legal, ApplyCore, ApplyRun, Chained;
    var w1 := After(env, w, e, s');
    var m := Update(UpdateRow(Row(ld, id), s'.tasks[id], env.now));
    MutationKeepsChain(b, env, w1, m);
    assert Tracked(b.rows, env, Mutate(w1, m)) by {
      UpdateTracks(w.state.core.tasks, Mutated(b.rows, w.mutations), env.runId, id, s'.tasks[id], Row(ld, id),
                   env.now) by {
        hide RowsAgree;
      }
      assert m.task.id in Mutated(b.rows, w.mutations);
      TrackedSnoc(b.rows, env, w, Mutate(w1, m), m) by { hide RowsAgree, MutateRows; }
    }
    assert s'.tasks.Keys == w.state.core.tasks.Keys;
  }

  function TaskFor(env: Env, w: Work, step: Step, phase: TaskPhase): TaskRecord {
    NewTask(env, w.state.core.outputs, step, phase, env.Id(w.next))
  }

  function ScheduledEvent(env: Env, w: Work, step: Step, phase: TaskPhase): Event {
    EventOf(env, w, step.id, Some(TaskFor(env, w, step, phase).id), ScheduledPayload(TaskFor(env, w, step, phase)))
  }

  /** Scheduling `step` now is legal and leads to core `s'`. */
  predicate Schedules(env: Env, w: Work, step: Step, phase: TaskPhase, s': Core) {
    var id := env.Id(w.next);
    && Legal(w.state.core, ScheduledEvent(env, w, step, phase))
    && ApplyCore(w.state.core, ScheduledEvent(env, w, step, phase)) == Ok(s')
    && Scheduled(w.state.core, s', id, step.id)
    && s'.tasks[id].phase == phase
    && RowAgrees(s'.tasks[id], TaskFor(env, w, step, phase))
  }

  function WithScheduled(env: Env, w: Work, step: Step, phase: TaskPhase, s': Core): (w': Work)
    ensures w'.state.core == s' && w'.state.run.status == w.state.run.status
    ensures w'.state.run.failure == w.state.run.failure
  {
    Mutate(After(env, w, ScheduledEvent(env, w, step, phase), s'), Insert(TaskFor(env, w, step, phase)))
  }

  /** A new task with its row. */
  lemma ScheduleGood(b: Base, env: Env, w: Work, step: Step, phase: TaskPhase, s': Core)
    requires Good(b, env, w) && Schedules(env, w, step, phase, s')
    ensures Schedule(env, w, step, phase) == Ok(WithScheduled(env, w, step, phase, s'))
    ensures Good(b, env, WithScheduled(env, w, step, phase, s'))
  {
    hide Legal, ApplyCore, ApplyRun, Chained, RowAgrees, NewTask, Tracked, Emit, Fresh, Good, Schedule;
    ScheduleParts(b, env, w, step, phase, s');
    var e, task := ScheduledEvent(env, w, step, phase), TaskFor(env, w, step, phase);
    EventGood(b, env, w, e, s') by { hide Scheduled; }
    MutationKeepsChain(b, env, After(env, w, e, s'), Insert(task)) by { hide Scheduled; }
    ScheduleIs(env, w, step, phase, s') by { hide Scheduled; }
    InsertTracks(b, env, w, WithScheduled(env, w, step, phase, s'), task);
    FreshAfter(env, w, s', env.Id(w.next));
    GoodFromParts(b, env, WithScheduled(env, w, step, phase, s')) by { hide Scheduled; }
  }

  lemma ScheduleParts(b: Base, env: Env, w: Work, step: Step, phase: TaskPhase, s': Core)
    requires Good(b, env, w) && Schedules(env, w, step, phase, s')
    ensures Chained(b.def, b.state, b.version, env, w) && Tracked(b.rows, env, w)
            && Fresh(env, w.state.core.tasks, w.next)
    ensures TaskFor(env, w, step, phase).id == env.Id(w.next) && TaskFor(env, w, step, phase).runId == env.runId
  {
    hide Legal, ApplyCore, Chained, Tracked, Fresh, Scheduled, RowAgrees;
  }

  lemma ScheduleIs(env: Env, w: Work, step: Step, phase: TaskPhase, s': Core)
    requires var e := ScheduledEvent(env, w, step, phase);
               Emit(env, w, e.stepId, e.taskId, e.payload) == Ok(After(env, w, e, s'))
    ensures Schedule(env, w, step, phase) == Ok(WithScheduled(env, w, step, phase, s'))
  {
    hide Emit, After, ScheduledPayload, NewTask;
  }

  lemma FreshAfter(env: Env, w: Work, s': Core, id: TaskId)
    requires Fresh(env, w.state.core.tasks, w.next) && id == env.Id(w.next) && id in s'.tasks
    requires s'.tasks == w.state.core.tasks[id := s'.tasks[id]]
    ensures Fresh(env, s'.tasks, w.next + 1)
  {
  }

  lemma GoodFromParts(b: Base, env: Env, w: Work)
    requires Chained(b.def, b.state, b.version, env, w) && Tracked(b.rows, env, w)
             && Fresh(env, w.state.core.tasks, w.next)
    ensures Good(b, env, w)
  {
    hide Chained, Tracked, Fresh;
  }

  lemma InsertTracks(b: Base, env: Env, w: Work, w': Work, task: TaskRecord)
    requires Tracked(b.rows, env, w) && task.id == env.Id(w.next) && task.runId == env.runId
    requires var tasks, tasks' := w.state.core.tasks, w'.state.core.tasks;
             && task.id !in tasks && task.id in tasks' && tasks' == tasks[task.id := tasks'[task.id]]
             && RowAgrees(tasks'[task.id], task)
    requires w'.mutations == w.mutations + [Insert(task)]
    ensures Tracked(b.rows, env, w')
  {
    hide RowAgrees;
    assert Proper(Mutated(b.rows, w.mutations), env, Insert(task));
    OneRowChanges(w.state.core.tasks, Mutated(b.rows, w.mutations), env.runId, task.id, w'.state.core.tasks[task.id],
                  task) by {
      hide RowsAgree;
    }
    TrackedSnoc(b.rows, env, w, w', Insert(task)) by { hide RowsAgree, Proper; }
  }

  lemma ForwardSchedules(env: Env, w: Work, step: Step) returns (s': Core)
    requires SchedulesForward(w.state.core, step.id) && step == w.state.core.steps[step.id].definition
    requires env.Id(w.next) !in w.state.core.tasks && w.next > 1
    ensures Schedules(env, w, step, Forward, s')
  {
    hide NextCompensation, SchedulesForward;
    ForwardUnscheduled(w.state.core, step.id);
    s' := ApplyCore(w.state.core, ScheduledEvent(env, w, step, Forward)).value;
  }

  lemma ForwardUnscheduled(s: Core, x: StepId)
    requires SchedulesForward(s, x)
    ensures x in s.steps && s.steps[x].forwardTaskId.None?
  {
  }

  lemma CompensationSchedules(env: Env, w: Work, step: Step) returns (s': Core)
    requires w.state.core.compensating && NextCompensation(w.state.core) == Some(step.id)
    requires step == CompensationStep(w.state.core.steps[step.id].definition)
             && w.state.core.steps[step.id].definition.id == step.id
    requires env.Id(w.next) !in w.state.core.tasks && w.next > 1
    ensures Schedules(env, w, step, Compensation, s')
  {
    assert step.id in w.state.core.steps;
    hide NextCompensation;
    s' := ApplyCore(w.state.core, ScheduledEvent(env, w, step, Compensation)).value;
  }

  // ------------------------------------------------------------------ scheduling every ready step

  /** Forward tasks have been added for steps that had none; nothing else has changed. */
  predicate Grown(s: Core, s': Core) {
    && s'.outputs == s.outputs && s'.completedOrder == s.completedOrder
    && s'.cancelRequested == s.cancelRequested && s'.compensating == s.compensating
    && s'.steps.Keys == s.steps.Keys
    && (forall x {:trigger s'.steps[x]} :: x in s.steps ==>
          s'.steps[x] == s.steps[x]
          || (&& s.steps[x].forwardTaskId.None? && s'.steps[x].forwardTaskId.Some?
              && s'.steps[x].forwardStatus == Some(Available) && s'.steps[x].definition == s.steps[x].definition))
  }

  lemma {:induction false} ReadyStepGood(b: Base, env: Env, w: Work, x: StepId)
    requires Good(b, env, w) && Filed(b.def.steps, b.def.order) && x in w.state.core.steps
    requires !w.state.core.compensating && !w.state.core.cancelRequested
    ensures ScheduleIfReady(env, w, x).Ok?
    ensures var w' := ScheduleIfReady(env, w, x).value;
            && Good(b, env, w') && Grown(w.state.core, w'.state.core)
            && w'.state.run.status == w.state.run.status
            && (DependenciesCompleted(w.state.core.steps[x].definition, w.state.core.outputs) ==>
                  w'.state.core.steps[x].forwardTaskId.Some?)
  {
    var s := w.state.core;
    StepIsFiled(b, env, w, x);
    if Ready(s, x) {
      var step := s.steps[x].definition;
      var s' := ForwardSchedules(env, w, step) by { hide Inv, LegalFrom, Tracked; }
      hide Good, Schedules, DependenciesCompleted, WithScheduled, Schedule;
      ScheduleGood(b, env, w, step, Forward, s');
      ScheduledGrows(env, w, step, s');
    }
  }

  lemma ScheduledGrows(env: Env, w: Work, step: Step, s': Core)
    requires Schedules(env, w, step, Forward, s')
    ensures Grown(w.state.core, s') && step.id in s'.steps && s'.steps[step.id].forwardTaskId.Some?
  {
    hide Legal, ApplyCore, RowAgrees;
  }

  lemma StepIsFiled(b: Base, env: Env, w: Work, x: StepId)
    requires Good(b, env, w) && Filed(b.def.steps, b.def.order) && x in w.state.core.steps
    ensures w.state.core.steps[x].definition.id == x
    ensures w.state.core.steps[x].forwardTaskId.None? ==> w.state.core.steps[x].forwardStatus.None?
    ensures w.next > 1
  {
    hide OrderOk, LegalFrom, Tracked;
    assert StepOk(b.def, w.state.core, x);
  }

  lemma GrownTransitive(s: Core, s': Core, s'': Core)
    requires Grown(s, s') && Grown(s', s'')
    ensures Grown(s, s'')
  {
    forall x | x in s.steps
      ensures s''.steps[x] == s.steps[x]
              || (&& s.steps[x].forwardTaskId.None? && s''.steps[x].forwardTaskId.Some?
                  && s''.steps[x].forwardStatus == Some(Available) && s''.steps[x].definition == s.steps[x].definition)
    {
      assert s'.steps[x] == s.steps[x] || s'.steps[x].forwardTaskId.Some?;
    }
  }

  predicate ScheduledAmong(s: Core, list: seq<StepId>) {
    forall i ::
      0 <= i < |list| && list[i] in s.steps && DependenciesCompleted(s.steps[list[i]].definition, s.outputs) ==>
        s.steps[list[i]].forwardTaskId.Some?
  }

  lemma {:induction false} ReadyStepsGood(b: Base, env: Env, w: Work, list: seq<StepId>)
    requires Good(b, env, w) && Filed(b.def.steps, b.def.order)
    requires forall i :: 0 <= i < |list| ==> list[i] in w.state.core.steps
    requires !w.state.core.compensating && !w.state.core.cancelRequested
    ensures ScheduleForwardReady(env, w, list).Ok?
    ensures var w' := ScheduleForwardReady(env, w, list).value;
            && Good(b, env, w') && Grown(w.state.core, w'.state.core)
            && w'.state.run.status == w.state.run.status
            && ScheduledAmong(w'.state.core, list)
  {
    hide Good, ScheduleIfReady, DependenciesCompleted;
    if list != [] {
      var init, x := list[..|list| - 1], list[|list| - 1];
      ReadyStepsGood(b, env, w, init);
      var w1 := ScheduleForwardReady(env, w, init).value;
      ReadyStepGood(b, env, w1, x);
      var w' := ScheduleIfReady(env, w1, x).value;
      GrownTransitive(w.state.core, w1.state.core, w'.state.core);
      forall i | 0 <= i < |list| && list[i] in w'.state.core.steps
                 && DependenciesCompleted(w'.state.core.steps[list[i]].definition, w'.state.core.outputs)
        ensures w'.state.core.steps[list[i]].forwardTaskId.Some?
      {
        if i < |init| {
          assert init[i] == list[i];
          assert w'.state.core.steps[list[i]].definition == w1.state.core.steps[list[i]].definition;
        }
      }
    }
  }

  // ------------------------------------------------------------------ unwinding

  lemma NextIsKnown(b: Base, env: Env, w: Work)
    requires Good(b, env, w) && Filed(b.def.steps, b.def.order) && NextCompensation(w.state.core).Some?
    ensures NextCompensation(w.state.core).value in w.state.core.steps
    ensures w.state.core.steps[NextCompensation(w.state.core).value].definition.id
              == NextCompensation(w.state.core).value
  {
    StepIsFiled(b, env, w, NextCompensation(w.state.core).value) by { hide Good; }
  }

  /** The next compensation is scheduled while the run is being unwound. */
  lemma CompensationFinal(b: Base, env: Env, w: Work, x: StepId)
    requires Good(b, env, w) && Filed(b.def.steps, b.def.order)
    requires w.state.core.compensating && NextCompensation(w.state.core) == Some(x)
    requires Unwinding(w.state.core)
    requires w.state.run.status.Compensating? || (w.state.run.status.Failed? && !w.state.core.cancelRequested)
    ensures ScheduleCompensation(env, w, x).Ok? && Final(b, env, ScheduleCompensation(env, w, x).value)
  {
    NextIsKnown(b, env, w) by { hide Good; }
    StepIsFiled(b, env, w, x) by { hide Good, NextCompensation, Unwinding; }
    assert env.Id(w.next) !in w.state.core.tasks by { hide Chained, Tracked; }
    hide Good, NextCompensation;
    var step := CompensationStep(w.state.core.steps[x].definition);
    var s' := CompensationSchedules(env, w, step) by { hide Unwinding; }
    ScheduleGood(b, env, w, step, Compensation, s') by { hide Schedules, WithScheduled, Unwinding; }
    hide WithScheduled, Committed;
    CompensationSettles(w.state.core, s', env.Id(w.next), x, w.state.run.status) by { hide Legal, ApplyCore, Schedule; }
  }

  function FinishEvent(env: Env, w: Work): Event {
    EventOf(env, w, "", None,
            if w.state.core.cancelRequested then RunCancelled(w.state.run.cancelReason)
                else RunFailed(w.state.run.failure))
  }

  lemma FinishFinal(b: Base, env: Env, w: Work)
    requires Good(b, env, w) && w.next > 1 && NextCompensation(w.state.core).None? && Unwinding(w.state.core)
    ensures FinishWithoutCompensation(env, w) == Ok(After(env, w, FinishEvent(env, w), w.state.core.(finished := true)))
    ensures Final(b, env, After(env, w, FinishEvent(env, w), w.state.core.(finished := true)))
  {
    hide Good, NextCompensation, Unwinding, Committed;
    var e, s' := FinishEvent(env, w), w.state.core.(finished := true);
    RunEventGood(b, env, w, e, s') by { hide Emit, After; }
    FinishSettles(w.state.core, s', ApplyRun(w.state.run, w.state.core.cancelRequested, e).status) by { hide Emit,
        After, ApplyCore; }
  }

  function CompensatingEvent(env: Env, w: Work): Event {
    EventOf(env, w, "", None,
            RunCompensating(if w.state.core.cancelRequested then w.state.run.cancelReason else w.state.run.failure))
  }

  lemma CompensatingGood(b: Base, env: Env, w: Work)
    requires Good(b, env, w) && w.next > 1 && NextCompensation(w.state.core).Some? && Unwinding(w.state.core)
    ensures var e, s' := CompensatingEvent(env, w), w.state.core.(compensating := true);
            && Emit(env, w, "", None, e.payload) == Ok(After(env, w, e, s'))
            && Good(b, env, After(env, w, e, s'))
            && After(env, w, e, s').state.run.status.Compensating?
            && NextCompensation(s') == NextCompensation(w.state.core) && Unwinding(s')
  {
    var e, s' := CompensatingEvent(env, w), w.state.core.(compensating := true);
    UnwindingContinues(w.state.core, s') by { hide Unwinding, Good, NextCompensation; }
    hide Good, Unwinding;
    RunEventGood(b, env, w, e, s') by { hide Emit, After; }
  }

  /** Unwinding is started, or the run is finished. */
  lemma BeginFinal(b: Base, env: Env, w: Work)
    requires Good(b, env, w) && Filed(b.def.steps, b.def.order) && w.next > 1 && Unwinding(w.state.core)
    ensures BeginCompensationOrFinish(env, w).Ok? && Final(b, env, BeginCompensationOrFinish(env, w).value)
  {
    hide Good, Unwinding, Committed, Emit, ScheduleCompensation, FinishWithoutCompensation, LatestEligible;
    if NextCompensation(w.state.core).None? {
      FinishFinal(b, env, w);
    } else {
      CompensatingGood(b, env, w);
      var w1 := After(env, w, CompensatingEvent(env, w), w.state.core.(compensating := true));
      CompensationFinal(b, env, w1, NextCompensation(w.state.core).value) by { hide ApplyRun; }
    }
  }

  lemma UnwindingContinues(s: Core, s': Core)
    requires Unwinding(s) && s' == s.(compensating := true)
    ensures Unwinding(s')
  {
    var x :| x in s.steps && Lost(s.steps[x]);
    assert Lost(s'.steps[x]);
    assert forall id :: Open(s', id) ==> Open(s, id);
  }

  lemma IdleSettles(s: Core, status: RunStatus)
    requires Unwinding(s) && s.compensating && HasOpen(s, Compensation)
    requires status.Compensating? || (status.Failed? && !s.cancelRequested)
    ensures Committed(status, s)
  {
    LostIsNotCompleted(s);
    var id :| id in s.tasks && s.tasks[id].phase == Compensation && s.tasks[id].status.Open();
    assert Open(s, id);
  }

  lemma AdvanceFinal(b: Base, env: Env, w: Work)
    requires Good(b, env, w) && Filed(b.def.steps, b.def.order) && w.next > 1
    requires Unwinding(w.state.core) && w.state.core.compensating
    requires w.state.run.status.Compensating? || (w.state.run.status.Failed? && !w.state.core.cancelRequested)
    ensures AdvanceCompensation(env, w).Ok? && Final(b, env, AdvanceCompensation(env, w).value)
  {
    hide Good, Committed, ScheduleCompensation, FinishWithoutCompensation, LatestEligible;
    if HasOpen(w.state.core, Compensation) {
      IdleSettles(w.state.core, w.state.run.status) by { hide Unwinding; }
    } else if NextCompensation(w.state.core).Some? {
      CompensationFinal(b, env, w, NextCompensation(w.state.core).value) by { hide Unwinding, NextCompensation; }
    } else {
      FinishFinal(b, env, w) by { hide Unwinding, NextCompensation; }
    }
  }

  // ------------------------------------------------------------------ after a completion

  lemma RunningSettles(s: Core, status: RunStatus)
    requires !s.compensating && !s.cancelRequested && ReadyScheduled(s) && !AllCompleted(s)
    requires status.Running? || status.Failed?
    requires status.Running? <==> !AnyLost(s)
    ensures Committed(status, s)
  {
  }

  lemma CompletedSettles(s: Core)
    requires !s.compensating && !s.cancelRequested && ReadyScheduled(s) && AllCompleted(s)
    ensures Committed(RunStatus.Completed, s.(finished := true))
  {
    hide DependenciesCompleted;
    assert !AnyLost(s.(finished := true));
  }

  lemma AllCompletedClosed(def: Definition, s: Core)
    requires Inv(def, s) && AllCompleted(s)
    ensures !HasOpen(s, Forward)
  {
    hide OrderOk;
    forall id | id in s.tasks && s.tasks[id].phase == Forward
      ensures !s.tasks[id].status.Open()
    {
      assert TaskOk(s, id);
    }
  }

  lemma GrownKeepsLoss(def: Definition, s: Core, s': Core)
    requires Grown(s, s') && Inv(def, s)
    ensures AnyLost(s') <==> AnyLost(s)
  {
    hide OrderOk, TaskOk;
    if AnyLost(s) {
      var x :| x in s.steps && Lost(s.steps[x]);
      assert StepOk(def, s, x);
      assert Lost(s'.steps[x]);
    }
    if AnyLost(s') {
      var x :| x in s'.steps && Lost(s'.steps[x]);
      assert Lost(s.steps[x]);
    }
  }

  lemma GoodInv(b: Base, env: Env, w: Work)
    requires Good(b, env, w)
    ensures Inv(b.def, w.state.core)
  {
    hide Inv, LegalFrom, Fold, Tracked, Fresh;
  }

  lemma OrderCovers(def: Definition, s: Core)
    requires Inv(def, s) && Filed(def.steps, def.order)
    ensures forall i :: 0 <= i < |def.order| ==> def.order[i] in s.steps
    ensures ScheduledAmong(s, def.order) ==> ReadyScheduled(s)
    ensures AllForwardCompleted(def.order, s) <==> AllCompleted(s)
  {
    hide StepOk, TaskOk, OrderOk, DependenciesCompleted;
    forall x | x in s.steps ensures exists i :: 0 <= i < |def.order| && def.order[i] == x {
      assert x in def.order;
    }
  }

  function CompletedEvent(env: Env, w: Work): Event {
    EventOf(env, w, "", None, RunCompleted(RunOutput(w.state.core)))
  }

  /** The run goes forward: ready steps are scheduled, or the run completes. */
  lemma ForwardFinal(b: Base, env: Env, w: Work)
    requires Good(b, env, w) && Filed(b.def.steps, b.def.order)
    requires !w.state.core.compensating && !w.state.core.cancelRequested
    requires w.state.run.status.Running? || w.state.run.status.Failed?
    requires w.state.run.status.Running? <==> !AnyLost(w.state.core)
    ensures PostProcess(env, b.def.order, w).Ok? && Final(b, env, PostProcess(env, b.def.order, w).value)
  {
    ReadyStepsSettled(b, env, w) by { hide Good, AnyLost; }
    hide Good, AnyLost, Emit, ScheduleForwardReady, HasOpen, AllForwardCompleted, AllCompleted, ReadyScheduled, Inv;
    ForwardOutcome(b, env, ScheduleForwardReady(env, w, b.def.order).value);
  }

  lemma ReadyStepsSettled(b: Base, env: Env, w: Work)
    requires Good(b, env, w) && Filed(b.def.steps, b.def.order)
    requires !w.state.core.compensating && !w.state.core.cancelRequested
    ensures ScheduleForwardReady(env, w, b.def.order).Ok?
    ensures var w' := ScheduleForwardReady(env, w, b.def.order).value;
            && Good(b, env, w') && Inv(b.def, w'.state.core) && w'.state.run.status == w.state.run.status
            && !w'.state.core.compensating && !w'.state.core.cancelRequested
                 && w'.state.core.outputs == w.state.core.outputs
            && ReadyScheduled(w'.state.core)
            && (AnyLost(w'.state.core) <==> AnyLost(w.state.core))
            && (AllForwardCompleted(b.def.order, w'.state.core) <==> AllCompleted(w'.state.core))
  {
    GoodInv(b, env, w);
    OrderCovers(b.def, w.state.core) by { hide Inv, Good; }
    hide Good, Inv, AnyLost, DependenciesCompleted, ScheduleForwardReady, ReadyScheduled, AllForwardCompleted,
         AllCompleted, ScheduledAmong;
    ReadyStepsGood(b, env, w, b.def.order) by { hide Grown; }
    var w1 := ScheduleForwardReady(env, w, b.def.order).value;
    GrownKeepsLoss(b.def, w.state.core, w1.state.core) by { hide Grown; }
    GoodInv(b, env, w1);
    OrderCovers(b.def, w1.state.core);
  }

  lemma ForwardOutcome(b: Base, env: Env, w: Work)
    requires Good(b, env, w) && Inv(b.def, w.state.core) && ReadyScheduled(w.state.core)
    requires !w.state.core.compensating && !w.state.core.cancelRequested
    requires w.state.run.status.Running? || w.state.run.status.Failed?
    requires w.state.run.status.Running? <==> !AnyLost(w.state.core)
    requires AllForwardCompleted(b.def.order, w.state.core) <==> AllCompleted(w.state.core)
    ensures AllCompleted(w.state.core) ==> !HasOpen(w.state.core, Forward)
    ensures AllCompleted(w.state.core) ==>
              var w' := After(env, w, CompletedEvent(env, w), w.state.core.(finished := true));
              Emit(env, w, "", None, RunCompleted(RunOutput(w.state.core))) == Ok(w') && Final(b, env, w')
    ensures !AllCompleted(w.state.core) ==> Final(b, env, w)
  {
    if AllCompleted(w.state.core) {
      AllCompletedClosed(b.def, w.state.core) by { hide Good, ReadyScheduled; }
      hide Good, Inv, AllForwardCompleted, AnyLost, ReadyScheduled, AllCompleted, Committed;
      CompletedOutcome(b, env, w) by { hide Emit, After; }
    } else {
      hide Good, Inv, AllForwardCompleted;
      RunningSettles(w.state.core, w.state.run.status) by { hide AllCompleted, ReadyScheduled, AnyLost; }
    }
  }

  lemma CompletedOutcome(b: Base, env: Env, w: Work)
    requires Good(b, env, w) && ReadyScheduled(w.state.core) && AllCompleted(w.state.core)
    requires !w.state.core.compensating && !w.state.core.cancelRequested
    ensures var w' := After(env, w, CompletedEvent(env, w), w.state.core.(finished := true));
            Emit(env, w, "", None, RunCompleted(RunOutput(w.state.core))) == Ok(w') && Final(b, env, w')
  {
    NextAfterOne(b, env, w);
    hide Good, AllCompleted, ReadyScheduled, Committed;
    CompletedSettles(w.state.core);
    CompletedLegal(env, w);
    hide Legal, ApplyCore;
    RunEventGood(b, env, w, CompletedEvent(env, w), w.state.core.(finished := true)) by { hide Emit, After, ApplyRun; }
  }

  lemma CompletedLegal(env: Env, w: Work)
    requires w.next > 1 && AllCompleted(w.state.core) && !w.state.core.compensating && !w.state.core.cancelRequested
    ensures Legal(w.state.core, CompletedEvent(env, w))
    ensures ApplyCore(w.state.core, CompletedEvent(env, w)) == Ok(w.state.core.(finished := true))
  {
    hide AllCompleted;
  }

  lemma NextAfterOne(b: Base, env: Env, w: Work)
    requires Good(b, env, w)
    ensures w.next > 1
  {
    hide Inv, LegalFrom, Fold, Tracked, Fresh;
  }

  /** A task has just completed: whatever the run does next is legal and commits. */
  lemma CompletionFinal(b: Base, env: Env, s: Core, status: RunStatus, id: TaskId, w: Work)
    requires Filed(b.def.steps, b.def.order) && Inv(b.def, s) && Committed(status, s) && Open(s, id)
    requires Good(b, env, w) && w.state.run.status == status
    requires Moves(s, w.state.core, id) && w.state.core.tasks[id].status.Completed?
    ensures PostProcess(env, b.def.order, w).Ok? && Final(b, env, PostProcess(env, b.def.order, w).value)
  {
    OpenMeansUnfinished(b.def, status, s, id) by { hide Good, Committed, Moves, Inv; }
    NextAfterOne(b, env, w);
    if s.compensating {
      CompletionUnwinds(b.def, status, s, w.state.core, id) by { hide Good, Committed, Moves, Inv; }
      AdvanceFinal(b, env, w) by { hide Good, Committed, Inv, Unwinding; }
    } else {
      assert TaskOk(s, id);
      LossAfterMove(s, w.state.core, id) by { hide Good, Inv, Committed, AnyLost; }
      assert status.Running? <==> !AnyLost(s);
      ForwardFinal(b, env, w) by { hide Good, Inv, Committed, AnyLost; }
    }
  }

  // ------------------------------------------------------------------ the commands

  /** A command has read one committed state, and its identifiers are new. */
  ghost predicate LoadedOk(env: Env, ld: Loaded) {
    && ValidDefinition(ld.def)
    && Inv(ld.def, ld.state.core)
    && Committed(ld.state.run.status, ld.state.core)
    && ld.run.status == ld.state.run.status
    && ld.run.version >= 1
    && RowsAgree(ld.state.core.tasks, ld.tasks, env.runId)
    && Fresh(env, ld.state.core.tasks, ld.run.version + 1)
    && NoDup(ld.listing) && (forall id :: id in ld.listing <==> id in ld.tasks)
  }

  function BaseOf(ld: Loaded): Base {
    Base(ld.def, ld.state, ld.run.version, ld.tasks)
  }

  lemma BeginGood(env: Env, ld: Loaded)
    requires LoadedOk(env, ld)
    ensures Good(BaseOf(ld), env, Begin(ld))
    ensures forall id ::
              id in ld.state.core.tasks ==> Row(ld, id).id == id && Row(ld, id).stepId == ld.state.core.tasks[id].stepId
  {
    hide Inv, Committed, Fresh;
    BeginChains(ld, env);
    forall id | id in ld.state.core.tasks
      ensures Row(ld, id).id == id && Row(ld, id).stepId == ld.state.core.tasks[id].stepId
    {
      assert RowAt(ld.state.core.tasks, ld.tasks, env.runId, id);
    }
  }

  function EndEvent(env: Env, ld: Loaded, id: TaskId, payload: Payload): Event
    requires id in ld.state.core.tasks
  {
    EventOf(env, Begin(ld), ld.state.core.tasks[id].stepId, Some(id), payload)
  }

  /** The core after a legal end of task `id`, and what it did. */
  ghost predicate Ends(env: Env, ld: Loaded, id: TaskId, e: Event, s': Core) {
    && id in ld.state.core.tasks
    && e == EndEvent(env, ld, id, e.payload)
    && Legal(ld.state.core, e) && ApplyCore(ld.state.core, e) == Ok(s') && Moves(ld.state.core, s', id)
    && !e.payload.WorkflowStarted?
  }

  function EndedWork(env: Env, ld: Loaded, id: TaskId, e: Event, s': Core): (w: Work)
    requires id in s'.tasks
    ensures w.state == RunState(ApplyRun(ld.state.run, ld.state.core.cancelRequested, e), s')
  {
    Mutate(After(env, Begin(ld), e, s'), Update(UpdateRow(Row(ld, id), s'.tasks[id], env.now)))
  }

  lemma EndsGood(env: Env, ld: Loaded, id: TaskId, e: Event, s': Core)
    requires LoadedOk(env, ld) && Ends(env, ld, id, e, s')
    ensures EmitAndUpdate(env, ld, Begin(ld), ld.state.core.tasks[id].stepId, id, e.payload)
              == Ok(EndedWork(env, ld, id, e, s'))
    ensures Good(BaseOf(ld), env, EndedWork(env, ld, id, e, s'))
  {
    BeginGood(env, ld) by { hide LoadedOk, Ends; }
    hide LoadedOk, Legal, ApplyCore, ApplyRun, Moves, Good, EmitAndUpdate;
    TaskEventGood(BaseOf(ld), env, ld, Begin(ld), id, e, s');
  }

  /** The rest of a command whose task has completed. */
  lemma EndsFinal(env: Env, ld: Loaded, id: TaskId, e: Event, s': Core)
    requires LoadedOk(env, ld) && Ends(env, ld, id, e, s') && Open(ld.state.core, id)
    requires (e.payload.TaskCompleted? || e.payload.TimerFired?) && s'.tasks[id].status.Completed?
    ensures var w := EndedWork(env, ld, id, e, s');
            PostProcess(env, ld.def.order, w).Ok? && Final(BaseOf(ld), env, PostProcess(env, ld.def.order, w).value)
  {
    EndsGood(env, ld, id, e, s') by { hide LoadedOk, Ends; }
    hide Inv, Committed, Fresh, RowsAgree, Legal, ApplyCore, Moves, Good, EmitAndUpdate, PostProcess, Open;
    CompletionFinal(BaseOf(ld), env, ld.state.core, ld.state.run.status, id, EndedWork(env, ld, id, e, s'));
  }

  lemma CompleteWorkFinal(env: Env, ld: Loaded, worker: string, id: TaskId, output: Json)
    requires LoadedOk(env, ld) && LeaseCheck(ld, worker, id).None? && ld.state.core.tasks[id].kind.Activity?
    ensures CompleteWork(env, ld, worker, id, output).Ok?
    ensures Final(BaseOf(ld), env, CompleteWork(env, ld, worker, id, output).value)
  {
    var t := ld.state.core.tasks[id];
    var e := EndEvent(env, ld, id, TaskCompleted(id, t.stepId, worker, NormalizeJson(output), t.phase.Compensation?));
    var s' := CompleteEnds(env, ld, worker, id, e) by { hide LoadedOk; }
    hide LoadedOk, Ends, Final, EndedWork, LeaseCheck, Open, CompleteWork;
    EndsGood(env, ld, id, e, s') by { hide PostProcess, EmitAndUpdate; }
    EndsFinal(env, ld, id, e, s') by { hide PostProcess, EmitAndUpdate; }
    CompleteWorkIs(env, ld, worker, id, output, EndedWork(env, ld, id, e, s')) by { hide PostProcess, EmitAndUpdate; }
  }

  lemma CompleteWorkIs(env: Env, ld: Loaded, worker: string, id: TaskId, output: Json, w: Work)
    requires id in ld.state.core.tasks
    requires var t := ld.state.core.tasks[id];
             EmitAndUpdate(env, ld, Begin(ld), t.stepId, id,
                           TaskCompleted(id, t.stepId, worker, NormalizeJson(output), t.phase.Compensation?)) == Ok(w)
    ensures CompleteWork(env, ld, worker, id, output) == PostProcess(env, ld.def.order, w)
  {
    hide PostProcess, EmitAndUpdate, Begin;
  }

  lemma CompleteEnds(env: Env, ld: Loaded, worker: string, id: TaskId, e: Event) returns (s': Core)
    requires LoadedOk(env, ld) && LeaseCheck(ld, worker, id).None? && ld.state.core.tasks[id].kind.Activity?
    requires e.payload.TaskCompleted?
    requires var t := ld.state.core.tasks[id];
             e == EndEvent(env, ld, id, TaskCompleted(id, t.stepId, worker, e.payload.output, t.phase.Compensation?))
    ensures Ends(env, ld, id, e, s') && Open(ld.state.core, id) && s'.tasks[id].status.Completed?
  {
    hide Committed, Fresh, RowsAgree, ValidDefinition, Moves, Inv, NextCompensation;
    assert ld.state.core.tasks[id].status.Leased?;
    OpenIsWanted(ld.state.run.status, ld.state.core, id);
    CompletionMoves(ld.def, ld.state.core, e) by { hide ApplyCore; }
    s' := ApplyCore(ld.state.core, e).value;
  }

  lemma FireWorkFinal(env: Env, ld: Loaded, id: TaskId)
    requires LoadedOk(env, ld) && TimerDue(ld, id, env.now)
    ensures FireWork(env, ld, id).Ok? && Final(BaseOf(ld), env, FireWork(env, ld, id).value)
  {
    var e := EndEvent(env, ld, id, TimerFired(id, ld.state.core.tasks[id].stepId));
    var s' := FireEnds(env, ld, id, e) by { hide LoadedOk; }
    hide LoadedOk, Ends, Final, EmitAndUpdate, PostProcess, EndedWork, Open, Begin;
    EndsGood(env, ld, id, e, s');
    EndsFinal(env, ld, id, e, s');
  }

  lemma FireEnds(env: Env, ld: Loaded, id: TaskId, e: Event) returns (s': Core)
    requires LoadedOk(env, ld) && TimerDue(ld, id, env.now)
    requires e == EndEvent(env, ld, id, TimerFired(id, ld.state.core.tasks[id].stepId))
    ensures Ends(env, ld, id, e, s') && Open(ld.state.core, id) && s'.tasks[id].status.Completed?
  {
    hide Committed, Fresh, RowsAgree, ValidDefinition, Moves, Inv, NextCompensation;
    OpenIsWanted(ld.state.run.status, ld.state.core, id);
    CompletionMoves(ld.def, ld.state.core, e) by { hide ApplyCore; }
    s' := ApplyCore(ld.state.core, e).value;
  }

  // ------------------------------------------------------------------ failing a task

  lemma FailEnds(env: Env, ld: Loaded, worker: string, id: TaskId, e: Event) returns (s': Core)
    requires LoadedOk(env, ld) && LeaseCheck(ld, worker, id).None? && ld.state.core.tasks[id].kind.Activity?
    requires e.payload.TaskFailed?
    requires var t := ld.state.core.tasks[id];
             e == EndEvent(env, ld, id, TaskFailed(id, t.stepId, worker, e.payload.error, t.phase.Compensation?))
    ensures Ends(env, ld, id, e, s') && Open(ld.state.core, id) && s'.tasks[id].status.Failed?
  {
    hide Committed, Fresh, RowsAgree, ValidDefinition, Moves, Inv, NextCompensation;
    assert ld.state.core.tasks[id].status.Leased?;
    OpenIsWanted(ld.state.run.status, ld.state.core, id);
    TaskEventMoves(ld.def, ld.state.core, e) by { hide ApplyCore; }
    s' := ApplyCore(ld.state.core, e).value;
  }

  /** The task has failed for good: its row is updated, the failure text is set and the unwinding starts. */
  lemma FinalFailureFinal(env: Env, ld: Loaded, worker: string, id: TaskId, error: string)
    requires LoadedOk(env, ld) && LeaseCheck(ld, worker, id).None? && ld.state.core.tasks[id].kind.Activity?
    ensures FailEvent(env, ld, worker, id, error).Ok?
    ensures var w := FailEvent(env, ld, worker, id, error).value;
            && w.state.core.cancelRequested == ld.state.core.cancelRequested
            && FinalFailureWork(env, ld, w, id, error).Ok?
            && Final(BaseOf(ld), env, FinalFailureWork(env, ld, w, id, error).value)
  {
    var t := ld.state.core.tasks[id];
    var e := EndEvent(env, ld, id, TaskFailed(id, t.stepId, worker, error, t.phase.Compensation?));
    var s' := FailEnds(env, ld, worker, id, e) by { hide LoadedOk; }
    assert Unwinding(s') by {
      hide Inv, Committed, Fresh, RowsAgree, Legal, ApplyCore, Moves, Open;
      FailureUnwinds(ld.def, ld.state.run.status, ld.state.core, s', id);
    }
    assert Filed(ld.def.steps, ld.def.order);
    assert s'.cancelRequested == ld.state.core.cancelRequested;
    hide LoadedOk, Ends, Unwinding, Final, LeaseCheck, Open, FailEvent, FinalFailureWork, ApplyCore;
    FailureWorkFinal(env, ld, worker, id, error, e, s');
  }

  lemma FailureWorkFinal(env: Env, ld: Loaded, worker: string, id: TaskId, error: string, e: Event, s': Core)
    requires LoadedOk(env, ld) && Ends(env, ld, id, e, s') && Unwinding(s')
    requires var t := ld.state.core.tasks[id];
             e.payload == TaskFailed(id, t.stepId, worker, error, t.phase.Compensation?)
    requires Filed(ld.def.steps, ld.def.order)
    ensures FailEvent(env, ld, worker, id, error) == Ok(After(env, Begin(ld), e, s'))
    ensures var w := After(env, Begin(ld), e, s');
            FinalFailureWork(env, ld, w, id, error).Ok?
              && Final(BaseOf(ld), env, FinalFailureWork(env, ld, w, id, error).value)
  {
    EndsGood(env, ld, id, e, s') by { hide LoadedOk, Ends; }
    assert ApplyCore(ld.state.core, e) == Ok(s') && id in s'.tasks;
    hide LoadedOk, Ends, ApplyCore, ApplyRun, Unwinding, Good, BeginCompensationOrFinish;
    var t := ld.state.core.tasks[id];
    var failure := if t.phase.Compensation? then CompensationFailure(t.stepId, error) else error;
    var w1 := EndedWork(env, ld, id, e, s');
    var w2 := w1.(state := w1.state.(run := w1.state.run.(failure := failure)));
    FailureEditGood(BaseOf(ld), env, w1, failure);
    NextAfterOne(BaseOf(ld), env, w2);
    BeginFinal(BaseOf(ld), env, w2);
    hide Final, EndedWork;
  }

  lemma FailureEditGood(b: Base, env: Env, w: Work, failure: string)
    requires Good(b, env, w)
    ensures Good(b, env, w.(state := w.state.(run := w.state.run.(failure := failure))))
  {
    hide Inv, LegalFrom, RowsAgree;
  }

  // ------------------------------------------------------------------ retrying a task

  /** An open task moves and stays open: the committed state remains one. */
  lemma OpenMoveKeepsCommitted(def: Definition, status: RunStatus, s: Core, s': Core, id: TaskId)
    requires Inv(def, s) && Committed(status, s) && Open(s, id) && Moves(s, s', id) && Open(s', id)
    ensures Committed(status, s')
  {
    assert TaskOk(s, id);
    hide Inv;
    LossAfterMove(s, s', id) by { hide Committed; }
    OpenMoveKeepsReady(s, s', id) by { hide Committed; }
    OpenMoveKeepsNext(s, s', id) by { hide Committed; }
    OpenMoveKeepsIncomplete(s, s', id) by { hide Committed, NextCompensation; }
    OpenMoveKeepsOpen(s, s', id) by { hide Committed, NextCompensation; }
    assert s'.cancelRequested == s.cancelRequested && s'.compensating == s.compensating;
    hide NextCompensation, ReadyScheduled, AnyLost, AllCompleted, HasOpen, Open, Moves;
  }

  lemma OpenMoveKeepsOpen(s: Core, s': Core, id: TaskId)
    requires Moves(s, s', id) && Open(s, id) && Open(s', id)
    ensures HasOpen(s, Compensation) ==> HasOpen(s', Compensation)
    ensures forall status :: CancelSettled(status, s) ==> CancelSettled(status, s')
  {
    OthersStayOpen(s, s', id);
    if HasOpen(s, Compensation) {
      var k :| k in s.tasks && s.tasks[k].phase == Compensation && s.tasks[k].status.Open();
      assert k in s'.tasks && s'.tasks[k].phase == Compensation && s'.tasks[k].status.Open();
    }
  }

  lemma OpenMoveKeepsReady(s: Core, s': Core, id: TaskId)
    requires Moves(s, s', id) && Open(s', id)
    ensures ReadyScheduled(s) ==> ReadyScheduled(s')
  {
    if ReadyScheduled(s) {
      ReadyScheduledAfterLoss(s, s', id) by { hide ReadyScheduled; }
    }
  }

  lemma OpenMoveKeepsNext(s: Core, s': Core, id: TaskId)
    requires Moves(s, s', id) && Open(s', id)
    ensures NextCompensation(s') == NextCompensation(s)
  {
    SameEligible(s.steps, s'.steps, s.completedOrder, |s.completedOrder|);
  }

  lemma {:induction false} SameEligible(steps: map<StepId, StepState>, steps': map<StepId, StepState>,
                                        order: seq<StepId>, n: nat)
    requires n <= |order| && steps.Keys == steps'.Keys
    requires forall x :: x in steps ==> Eligible(steps, x) == Eligible(steps', x)
    ensures LatestEligible(steps', order, n) == LatestEligible(steps, order, n)
  {
    if n > 0 { SameEligible(steps, steps', order, n - 1); }
  }

  lemma EndKeepsNext(s: Core, s': Core, id: TaskId)
    requires Moves(s, s', id) && !s'.tasks[id].status.Completed?
    ensures NextCompensation(s') == NextCompensation(s)
  {
    SameEligible(s.steps, s'.steps, s.completedOrder, |s.completedOrder|);
  }

  lemma OpenMoveKeepsIncomplete(s: Core, s': Core, id: TaskId)
    requires Moves(s, s', id) && Open(s', id) && Open(s, id)
    requires s.tasks[id].phase.Forward? ==> s.steps[s.tasks[id].stepId].forwardStatus == Some(s.tasks[id].status)
    ensures AllCompleted(s') <==> AllCompleted(s)
  {
    var x := s.tasks[id].stepId;
    if s.tasks[id].phase.Compensation? {
      assert forall y :: y in s.steps ==> s'.steps[y].forwardStatus == s.steps[y].forwardStatus;
    } else {
      assert s.steps[x].forwardStatus != Some(TaskStatus.Completed)
             && s'.steps[x].forwardStatus != Some(TaskStatus.Completed);
    }
  }

  /** Failed and scheduled again, in one commit. */
  lemma RetryEnds(env: Env, ld: Loaded, id: TaskId, e: Event, s': Core, e': Event) returns (s'': Core)
    requires LoadedOk(env, ld) && Ends(env, ld, id, e, s') && s'.tasks[id].status.Failed? && Open(ld.state.core, id)
    requires e.payload.TaskFailed? && e'.payload.TaskRetryScheduled? && e'.payload.error == e.payload.error
    requires var t := ld.state.core.tasks[id];
             && t.phase.Forward? && !ld.state.core.cancelRequested
             && t.stepId in ld.def.steps && t.attempt < MaxAttempts(ld.def.steps[t.stepId])
             && e' == RetryEvent(env, ld, After(env, Begin(ld), e, s'), id, e'.payload.error)
    ensures Legal(s', e') && ApplyCore(s', e') == Ok(s'') && Moves(ld.state.core, s'', id) && Open(s'', id)
    ensures var t'' := s''.tasks[id];
            t''.attempt == ld.state.core.tasks[id].attempt + 1 && t''.availableAt == e'.payload.availableAt
              && t''.error == e'.payload.error && t''.status.Available?
  {
    EndsInv(env, ld, id, e, s') by { hide LoadedOk, Ends; }
    FailedOnce(ld.state.core, id, e, s') by { hide LoadedOk, Moves, Open; }
    StepOfTask(ld.def, s', id) by { hide LoadedOk, Ends; }
    hide LoadedOk, ApplyCore, Open, Inv;
    s'' := RetryMoves(ld.def, s', id, e') by { hide Ends, Legal, Moves; }
    MovesTwice(ld.state.core, s', s'', id) by { hide Legal; }
    hide Legal, Ends, Moves;
  }

  lemma EndsInv(env: Env, ld: Loaded, id: TaskId, e: Event, s': Core)
    requires LoadedOk(env, ld) && Ends(env, ld, id, e, s')
    ensures Inv(ld.def, s')
  {
    hide Committed, Fresh, RowsAgree, ValidDefinition, Legal, ApplyCore, Moves, Inv;
    LegalKeepsInv(ld.def, ld.state.core, e);
  }

  lemma StepOfTask(def: Definition, s: Core, id: TaskId)
    requires Inv(def, s) && id in s.tasks
    ensures s.tasks[id].stepId in s.steps && s.tasks[id].stepId in def.steps
    ensures s.steps[s.tasks[id].stepId].definition == def.steps[s.tasks[id].stepId]
  {
    hide OrderOk;
    assert TaskOk(s, id);
    assert StepOk(def, s, s.tasks[id].stepId);
  }

  lemma FailedOnce(s: Core, id: TaskId, e: Event, s': Core)
    requires ApplyCore(s, e) == Ok(s') && e.payload.TaskFailed? && e.payload.taskId == id && id in s.tasks
    ensures id in s'.tasks && s'.tasks[id].status.Failed? && s'.tasks[id].attempt == s.tasks[id].attempt
    ensures s'.tasks[id].stepId == s.tasks[id].stepId && s'.tasks[id].phase == s.tasks[id].phase
    ensures s'.cancelRequested == s.cancelRequested && s'.tasks[id].error == e.payload.error
  {
  }

  lemma RetryMoves(def: Definition, s: Core, id: TaskId, e: Event) returns (s': Core)
    requires Inv(def, s) && id in s.tasks && s.tasks[id].status.Failed? && s.tasks[id].phase.Forward?
             && !s.cancelRequested
    requires s.tasks[id].stepId in s.steps
    requires e.sequence > 1 && e.payload.TaskRetryScheduled? && e.payload.taskId == id
             && e.payload.stepId == s.tasks[id].stepId && e.payload.error == s.tasks[id].error
    requires e.payload.attempt == s.tasks[id].attempt + 1 <= MaxAttempts(s.steps[s.tasks[id].stepId].definition)
    requires e.payload.availableAt
             == e.createdAt + BackoffForAttempt(s.steps[s.tasks[id].stepId].definition.retry.Normalize(),
                                                s.tasks[id].attempt)
    ensures Legal(s, e) && ApplyCore(s, e) == Ok(s') && Moves(s, s', id) && Open(s', id)
    ensures s'.tasks[id].attempt == e.payload.attempt && s'.tasks[id].availableAt == e.payload.availableAt
    ensures s'.tasks[id].error == e.payload.error && s'.tasks[id].status.Available?
  {
    hide Inv, NextCompensation, DependenciesCompleted;
    TaskEventMoves(def, s, e) by { hide Moves, ApplyCore; }
    s' := ApplyCore(s, e).value;
  }

  lemma MovesTwice(s: Core, s': Core, s'': Core, id: TaskId)
    requires Moves(s, s', id) && Moves(s', s'', id)
    requires !s'.tasks[id].status.Completed? && !s''.tasks[id].status.Completed?
    ensures Moves(s, s'', id)
  {
  }

  function RetryEvent(env: Env, ld: Loaded, w: Work, id: TaskId, error: string): Event
    requires id in ld.state.core.tasks && ld.state.core.tasks[id].stepId in ld.def.steps
  {
    var t := ld.state.core.tasks[id];
    var policy := ld.def.steps[t.stepId].retry.Normalize();
    EventOf(env, w, t.stepId, Some(id),
            TaskRetryScheduled(id, t.stepId, t.attempt + 1, env.now + BackoffForAttempt(policy, t.attempt), error))
  }

  function FailedEvent(env: Env, ld: Loaded, worker: string, id: TaskId, error: string): Event
    requires id in ld.state.core.tasks
  {
    var t := ld.state.core.tasks[id];
    EndEvent(env, ld, id, TaskFailed(id, t.stepId, worker, error, t.phase.Compensation?))
  }

  /** The two events of a retry, and the state they lead to: the task has moved and is open again. */
  lemma RetryParts(env: Env, ld: Loaded, worker: string, id: TaskId, error: string) returns (w: Work)
    requires LoadedOk(env, ld) && LeaseCheck(ld, worker, id).None? && ld.state.core.tasks[id].kind.Activity?
    requires Retries(ld, id, ld.state.core.cancelRequested, true)
    ensures Moves(ld.state.core, w.state.core, id) && Open(ld.state.core, id) && Open(w.state.core, id)
    ensures Chained(ld.def, ld.state, ld.run.version, env, w)
    ensures w.mutations == [] && w.state.run.status == ld.state.run.status && w.next >= ld.run.version + 1
    ensures FailEvent(env, ld, worker, id, error).Ok?
    ensures RetryWork(env, ld, FailEvent(env, ld, worker, id, error).value, id, error)
            == Ok(Mutate(w, Update(UpdateRow(Row(ld, id), w.state.core.tasks[id], env.now))))
    ensures ld.state.core.tasks[id].stepId in ld.def.steps && id in w.state.core.tasks
    ensures var t, t' := ld.state.core.tasks[id], w.state.core.tasks[id];
            && t'.status.Available? && t'.attempt == t.attempt + 1 && t'.error == error
            && t'.availableAt == env.now + BackoffForAttempt(ld.def.steps[t.stepId].retry.Normalize(), t.attempt)
  {
    RetriesForward(ld, id) by { hide LoadedOk; }
    hide LoadedOk, LeaseCheck, Retries, Ends, Open, Legal, Moves, ApplyCore, Chained, Emit, FailEvent, RetryWork,
         BackoffForAttempt;
    var e := FailedEvent(env, ld, worker, id, error);
    var s' := FailEnds(env, ld, worker, id, e);
    var w1 := After(env, Begin(ld), e, s');
    var e' := RetryEvent(env, ld, w1, id, error);
    var s'' := RetryEnds(env, ld, id, e, s', e');
    RetryChains(env, ld, id, e, s', e', s'');
    w := After(env, w1, e', s'');
    RetryWorkIs(env, ld, worker, id, error, e, s', e', s'') by { hide After; }
  }

  lemma RetriesForward(ld: Loaded, id: TaskId)
    requires id in ld.state.core.tasks && Retries(ld, id, ld.state.core.cancelRequested, true)
    ensures ld.state.core.tasks[id].phase.Forward? && !ld.state.core.cancelRequested
    ensures ld.state.core.tasks[id].stepId in ld.def.steps
    ensures ld.state.core.tasks[id].attempt < MaxAttempts(ld.def.steps[ld.state.core.tasks[id].stepId])
  {
  }

  lemma RetriesIfRetryable(ld: Loaded, id: TaskId, retryable: bool)
    requires id in ld.state.core.tasks && Retries(ld, id, ld.state.core.cancelRequested, retryable)
    ensures Retries(ld, id, ld.state.core.cancelRequested, true) && ld.state.core.tasks[id].stepId in ld.def.steps
  {
  }

  /** The failed task is available again for its next attempt; the run goes on as it was. */
  lemma RetryFinal(env: Env, ld: Loaded, worker: string, id: TaskId, error: string)
    requires LoadedOk(env, ld) && LeaseCheck(ld, worker, id).None? && ld.state.core.tasks[id].kind.Activity?
    requires Retries(ld, id, ld.state.core.cancelRequested, true)
    ensures FailEvent(env, ld, worker, id, error).Ok?
    ensures var w := FailEvent(env, ld, worker, id, error).value;
            && RetryWork(env, ld, w, id, error).Ok?
            && Final(BaseOf(ld), env, RetryWork(env, ld, w, id, error).value)
  {
    hide LoadedOk, LeaseCheck, Retries, Open, Moves, Chained, FailEvent, RetryWork, Final, UpdateRow, Row;
    var w := RetryParts(env, ld, worker, id, error);
    RetryGood(env, ld, id, w, w.state.core);
  }

  lemma RetryWorkIs(env: Env, ld: Loaded, worker: string, id: TaskId, error: string, e: Event, s': Core, e': Event,
                    s'': Core)
    requires id in ld.state.core.tasks && ld.state.core.tasks[id].stepId in ld.def.steps && id in s''.tasks
    requires var t := ld.state.core.tasks[id];
             && e.stepId == t.stepId && e.taskId == Some(id)
             && e.payload == TaskFailed(id, t.stepId, worker, error, t.phase.Compensation?)
    requires e' == RetryEvent(env, ld, After(env, Begin(ld), e, s'), id, error)
    requires s''.tasks[id].attempt == e'.payload.attempt && s''.tasks[id].availableAt == e'.payload.availableAt
             && s''.tasks[id].error == e'.payload.error
    requires var w1 := After(env, Begin(ld), e, s');
             && Emit(env, Begin(ld), e.stepId, e.taskId, e.payload) == Ok(w1)
             && Emit(env, w1, e'.stepId, e'.taskId, e'.payload) == Ok(After(env, w1, e', s''))
    ensures var w1 := After(env, Begin(ld), e, s');
            && FailEvent(env, ld, worker, id, error) == Ok(w1)
            && RetryWork(env, ld, w1, id, error)
               == Ok(Mutate(After(env, w1, e', s''), Update(UpdateRow(Row(ld, id), s''.tasks[id], env.now))))
  {
    hide Emit, BackoffForAttempt, ApplyRun;
  }

  lemma RetryChains(env: Env, ld: Loaded, id: TaskId, e: Event, s': Core, e': Event, s'': Core)
    requires LoadedOk(env, ld) && Ends(env, ld, id, e, s')
    requires e'.runId == env.runId && e'.sequence == Begin(ld).next + 1 && e'.createdAt == env.now
    requires Legal(s', e') && ApplyCore(s', e') == Ok(s'')
    ensures var w1 := After(env, Begin(ld), e, s');
            && Emit(env, Begin(ld), e.stepId, e.taskId, e.payload) == Ok(w1)
            && Emit(env, w1, e'.stepId, e'.taskId, e'.payload) == Ok(After(env, w1, e', s''))
            && Chained(ld.def, ld.state, ld.run.version, env, After(env, w1, e', s''))
  {
    BeginGood(env, ld) by { hide LoadedOk, Ends; }
    hide LoadedOk, Legal, ApplyCore, Moves, Chained, Tracked, Fresh, Emit, ApplyRun;
    EventGood(BaseOf(ld), env, Begin(ld), e, s');
    EventGood(BaseOf(ld), env, After(env, Begin(ld), e, s'), e', s'');
  }

  lemma RetryGood(env: Env, ld: Loaded, id: TaskId, w: Work, s'': Core)
    requires LoadedOk(env, ld) && Chained(ld.def, ld.state, ld.run.version, env, w)
    requires w.state.core == s'' && Moves(ld.state.core, s'', id) && Open(ld.state.core, id) && Open(s'', id)
    requires w.mutations == [] && w.state.run.status == ld.state.run.status && w.next >= ld.run.version + 1
    ensures Final(BaseOf(ld), env, Mutate(w, Update(UpdateRow(Row(ld, id), s''.tasks[id], env.now))))
  {
    BeginGood(env, ld) by { hide LoadedOk, Moves, Chained; }
    var m := Update(UpdateRow(Row(ld, id), s''.tasks[id], env.now));
    MutationKeepsChain(BaseOf(ld), env, w, m) by { hide LoadedOk, Moves, Chained; }
    OpenMoveKeepsCommitted(ld.def, ld.state.run.status, ld.state.core, s'', id) by {
      hide Inv, Committed, RowsAgree, Fresh, Moves, Chained, Open;
    }
    FirstUpdateTracks(ld.tasks, env, ld.state.core, w, id, Row(ld, id)) by { hide Inv, Committed, Moves, Chained,
        RowsAgree, Fresh; }
    StillFresh(env, ld.state.core, s'', id, ld.run.version + 1, w.next) by { hide Inv, Committed, RowsAgree, Fresh,
        Moves, Chained; }
    hide Inv, Committed, Chained, ValidDefinition, UpdateRow, RowsAgree, Fresh, Moves, Mutated;
  }

  lemma StillFresh(env: Env, s: Core, s': Core, id: TaskId, n: nat, n': nat)
    requires Fresh(env, s.tasks, n) && Moves(s, s', id) && n <= n'
    ensures Fresh(env, s'.tasks, n')
  {
    assert s'.tasks.Keys == s.tasks.Keys;
  }

  lemma FirstUpdateTracks(rows: map<TaskId, TaskRecord>, env: Env, s: Core, w: Work, id: TaskId, row: TaskRecord)
    requires RowsAgree(s.tasks, rows, env.runId) && Moves(s, w.state.core, id) && w.mutations == [] && row.id == id
    ensures Tracked(rows, env, Mutate(w, Update(UpdateRow(row, w.state.core.tasks[id], env.now))))
  {
    var m := Update(UpdateRow(row, w.state.core.tasks[id], env.now));
    assert [] + [m] == [m];
    assert id in rows;
    UpdateTracks(s.tasks, rows, env.runId, id, w.state.core.tasks[id], row, env.now) by { hide RowsAgree; }
    TrackedSnoc(rows, env, w.(state := w.state.(core := s)), Mutate(w, m), m) by { hide RowsAgree, UpdateRow; }
  }
}
