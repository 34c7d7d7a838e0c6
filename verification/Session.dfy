/** The engine's commands as the source runs them: in place, on the state that was loaded
    (internal/engine/service.go). */
module Session {
  import opened Prelude
  import opened Workflow
  import opened History
  import opened Engine
  import opened Reducer
  import opened Invariant
  import opened Commands
  import opened RunMachine
  import opened Backoff

  /** An in-place step did what the function says: it left `w`, or it reported the error. */
  predicate Did(result: Result<Work, Error>, w: Work, err: Option<Error>) {
    if result.Ok? then err.None? && w == result.value else err == Some(result.error)
  }

  function Inserts(tasks: seq<TaskRecord>): seq<Mutation> {
    seq(|tasks|, i requires 0 <= i < |tasks| => Insert(tasks[i]))
  }

  // ------------------------------------------------------------------ read-only scans

  method DependenciesAreCompleted(step: Step, outputs: map<StepId, Json>) returns (completed: bool)
    ensures completed == DependenciesCompleted(step, outputs)
  {
    var k := 0;
    while k < |step.dependencies|
      invariant 0 <= k <= |step.dependencies|
      invariant forall j :: 0 <= j < k ==> step.dependencies[j] in outputs
    {
      if step.dependencies[k] !in outputs {
        return false;
      }
      k := k + 1;
    }
    return true;
  }

  method HasOpenTasks(s: Core, phase: TaskPhase) returns (open: bool)
    ensures open == HasOpen(s, phase)
  {
    var rest := s.tasks.Keys;
    while rest != {}
      invariant rest <= s.tasks.Keys
      invariant forall id :: id in s.tasks && id !in rest ==> !(s.tasks[id].phase == phase && s.tasks[id].status.Open())
    {
      var id :| id in rest;
      rest := rest - {id};
      if s.tasks[id].phase != phase {
        continue;
      }
      if s.tasks[id].status.Available? || s.tasks[id].status.Leased? {
        return true;
      }
    }
    return false;
  }

  /** The scan from the end of the completed order. */
  method NextCompensationStep(s: Core) returns (next: Option<StepId>)
    ensures next == NextCompensation(s)
  {
    var i := |s.completedOrder|;
    while i > 0
      invariant 0 <= i <= |s.completedOrder|
      invariant NextCompensation(s) == LatestEligible(s.steps, s.completedOrder, i)
    {
      i := i - 1;
      var x := s.completedOrder[i];
      if x !in s.steps {
        continue;
      }
      var step := s.steps[x];
      if step.definition.compensation == "" || step.compensationCompleted || step.compensationScheduled {
        continue;
      }
      return Some(x);
    }
    return None;
  }

  method EveryForwardCompleted(order: seq<StepId>, s: Core) returns (all: bool)
    ensures all == AllForwardCompleted(order, s)
  {
    var i := 0;
    while i < |order|
      invariant 0 <= i <= |order|
      invariant AllForwardCompleted(order[..i], s)
    {
      if order[i] !in s.steps || s.steps[order[i]].forwardStatus != Some(TaskStatus.Completed) {
        return false;
      }
      i := i + 1;
    }
    assert order[..i] == order;
    return true;
  }

  // ------------------------------------------------------------------ one command in progress

  class CommandSession {
    const env: Env
    const ld: Loaded
    const machine: Machine
    var next: nat
    var events: seq<Event>
    var mutations: seq<Mutation>

    /** What the command has built so far. */
    function Progress(): Work
      reads this, machine
    {
      Work(machine.State(), next, events, mutations)
    }

    constructor (env: Env, ld: Loaded, machine: Machine)
      requires machine.State() == ld.state
      ensures this.env == env && this.ld == ld && this.machine == machine && Progress() == Begin(ld)
    {
      this.env, this.ld, this.machine := env, ld, machine;
      next, events, mutations := ld.run.version + 1, [], [];
    }

    /** A run that is being started: its first event is there already. */
    constructor ForNewRun(env: Env, def: Definition, run: RunRecord, started: Event, machine: Machine)
      ensures this.env == env && this.ld.def == def && this.machine == machine
      ensures Progress() == Work(machine.State(), 2, [started], [])
    {
      this.env, this.machine := env, machine;
      ld := Loaded(run, def, [], machine.State(), [], map[]);
      next, events, mutations := 2, [started], [];
    }

    /** Draws the next sequence number, records the event and applies it. */
    method Record(stepId: StepId, taskId: Option<TaskId>, payload: Payload) returns (err: Option<Error>)
      modifies this, machine
      ensures Did(Emit(env, old(Progress()), stepId, taskId, payload), Progress(), err)
    {
      hide Apply;
      var event := Event(env.runId, next, stepId, taskId, payload, env.now);
      next := next + 1;
      events := events + [event];
      err := machine.ApplyEvent(event);
    }

    /** A new task, its event and its row. */
    method ScheduleTask(step: Step, phase: TaskPhase) returns (err: Option<Error>)
      modifies this, machine
      ensures Did(Schedule(env, old(Progress()), step, phase), Progress(), err)
    {
      hide Emit, ScheduledPayload;
      var task := NewTask(env, machine.outputs, step, phase, env.Id(next));
      hide NewTask;
      err := Record(step.id, Some(task.id), ScheduledPayload(task));
      if err.None? {
        mutations := mutations + [Insert(task)];
      }
    }

    /** The loop over the declared steps; the new events and tasks are handed back and added by the caller. */
    method ScheduleReadySteps() returns (err: Option<Error>, ready: seq<Event>, tasks: seq<TaskRecord>)
      modifies machine, `next
      ensures Did(ScheduleForwardReady(env, old(Progress()), ld.def.order),
                  Work(machine.State(), next, events + ready, mutations + Inserts(tasks)), err)
    {
      hide ScheduleIfReady, Inserts;
      ready, tasks := [], [];
      assert events + [] == events && mutations + Inserts([]) == mutations by { InsertsNone(mutations); }
      var i := 0;
      while i < |ld.def.order|
        invariant 0 <= i <= |ld.def.order|
        invariant ScheduleForwardReady(env, old(Progress()), ld.def.order[..i])
                  == Ok(Work(machine.State(), next, events + ready, mutations + Inserts(tasks)))
      {
        assert ld.def.order[..i + 1][..i] == ld.def.order[..i];
        label before:
        var e, more, row := ScheduleStep(ld.def.order[i], events + ready, mutations + Inserts(tasks));
        if e.Some? {
          ReadyFails(env, old(Progress()), ld.def.order, i + 1);
          return e, ready, tasks;
        }
        assert events + ready + more == events + (ready + more);
        InsertsMore(mutations, tasks, row);
        ready, tasks := ready + more, tasks + row;
        i := i + 1;
      }
      assert ld.def.order[..i] == ld.def.order;
      return None, ready, tasks;
    }

    /** One turn of that loop, on top of the events and row changes of the turns before. */
    method ScheduleStep(x: StepId, ghost soFar: seq<Event>, ghost changes: seq<Mutation>)
      returns (err: Option<Error>, ready: seq<Event>, tasks: seq<TaskRecord>)
      modifies machine, `next
      ensures Did(ScheduleIfReady(env, Work(old(machine.State()), old(next), soFar, changes), x),
                  Work(machine.State(), next, soFar + ready, changes + Inserts(tasks)), err)
    {
      hide Apply, NewTask, Inserts;
      ready, tasks := [], [];
      assert soFar + [] == soFar && changes + Inserts([]) == changes by { InsertsNone(changes); }
      if x !in machine.steps {
        return Some(UnknownStep(x)), [], [];
      }
      var step := machine.steps[x];
      if step.forwardTaskId.Some? || step.forwardStatus == Some(TaskStatus.Completed)
         || step.forwardStatus == Some(TaskStatus.Cancelled) || step.forwardStatus == Some(TaskStatus.Failed) {
        return None, [], [];
      }
      var completed := DependenciesAreCompleted(step.definition, machine.outputs);
      if !completed {
        return None, [], [];
      }
      var task := NewTask(env, machine.outputs, step.definition, Forward, env.Id(next));
      var event := Event(env.runId, next, step.definition.id, Some(task.id), ScheduledPayload(task), env.now);
      next := next + 1;
      ready, tasks := [event], [task];
      InsertsOne(changes, task);
      err := machine.ApplyEvent(event);
    }

    method FinishRunWithoutCompensation() returns (err: Option<Error>)
      modifies this, machine
      ensures Did(FinishWithoutCompensation(env, old(Progress())), Progress(), err)
    {
      hide Emit;
      if machine.cancelRequested {
        err := Record("", None, RunCancelled(machine.run.cancelReason));
      } else {
        err := Record("", None, RunFailed(machine.run.failure));
      }
    }

    method ScheduleCompensationOf(x: StepId) returns (err: Option<Error>)
      requires x in machine.steps
      modifies this, machine
      ensures Did(ScheduleCompensation(env, old(Progress()), x), Progress(), err)
    {
      hide Schedule;
      err := ScheduleTask(CompensationStep(machine.steps[x].definition), Compensation);
    }

    method Advance() returns (err: Option<Error>)
      modifies this, machine
      ensures Did(AdvanceCompensation(env, old(Progress())), Progress(), err)
    {
      hide HasOpen, ScheduleCompensation, FinishWithoutCompensation, LatestEligible;
      var open := HasOpenTasks(machine.CoreState(), Compensation);
      if open {
        return None;
      }
      var candidate := NextCompensationStep(machine.CoreState());
      if candidate.Some? {
        err := ScheduleCompensationOf(candidate.value);
        return;
      }
      err := FinishRunWithoutCompensation();
    }

    method BeginUnwinding() returns (err: Option<Error>)
      modifies this, machine
      ensures Did(BeginCompensationOrFinish(env, old(Progress())), Progress(), err)
    {
      hide Emit, ScheduleCompensation, FinishWithoutCompensation, LatestEligible;
      var candidate := NextCompensationStep(machine.CoreState());
      if candidate.Some? {
        var reason := machine.run.failure;
        if machine.cancelRequested {
          reason := machine.run.cancelReason;
        }
        err := Record("", None, RunCompensating(reason));
        if err.Some? {
          return;
        }
        CompensatingKeepsSteps(env, old(Progress()), reason);
        err := ScheduleCompensationOf(candidate.value);
        return;
      }
      err := FinishRunWithoutCompensation();
    }

    method PostProcessTask() returns (err: Option<Error>)
      modifies this, machine
      ensures Did(PostProcess(env, ld.def.order, old(Progress())), Progress(), err)
    {
      hide Emit, AdvanceCompensation, ScheduleForwardReady, HasOpen, AllForwardCompleted, Inserts;
      if machine.compensating {
        err := Advance();
        return;
      }
      var e, ready, tasks := ScheduleReadySteps();
      if e.Some? {
        return e;
      }
      events := events + ready;
      mutations := mutations + Inserts(tasks);
      var all := EveryForwardCompleted(ld.def.order, machine.CoreState());
      if all {
        var open := HasOpenTasks(machine.CoreState(), Forward);
        if !open {
          err := Record("", None, RunCompleted(RunOutput(machine.CoreState())));
          return;
        }
      }
      return None;
    }

    // ---------------------------------------------------------------- the commands

    /** The replayed task, brought over into its row. */
    method UpdateTask(id: TaskId) returns (err: Option<Error>)
      modifies `mutations
      ensures id !in machine.tasks ==> err == Some(UnknownTask(id)) && mutations == old(mutations)
      ensures id in machine.tasks ==>
                err.None? && mutations == old(mutations) + [Update(UpdateRow(Row(ld, id), machine.tasks[id], env.now))]
    {
      if id !in machine.tasks {
        return Some(UnknownTask(id));
      }
      mutations := mutations + [Update(UpdateRow(Row(ld, id), machine.tasks[id], env.now))];
      return None;
    }

    method RecordAndUpdate(stepId: StepId, id: TaskId, payload: Payload) returns (err: Option<Error>)
      modifies this, machine
      ensures Did(EmitAndUpdate(env, ld, old(Progress()), stepId, id, payload), Progress(), err)
    {
      hide Emit, UpdateRow;
      err := Record(stepId, Some(id), payload);
      if err.None? {
        err := UpdateTask(id);
      }
    }

    /** The run row that is written back. */
    method Closing() returns (run: RunRecord)
      ensures run == CloseRun(env, ld, Progress())
    {
      run := machine.run.(version := |ld.events| + |events|, updatedAt := env.now);
      if run.status.Terminal() && run.completedAt.None? {
        run := run.(completedAt := Some(env.now));
      }
    }

    method CheckLease(worker: string, id: TaskId) returns (lost: Option<Error>)
      requires machine.State() == ld.state
      ensures lost == LeaseCheck(ld, worker, id)
    {
      if id !in machine.tasks {
        return Some(TaskNotFound);
      }
      var current := machine.tasks[id];
      if current.kind.Activity? && !current.status.Leased? {
        return Some(TaskLeaseLost);
      }
      if current.kind.Activity? && current.leaseOwner != worker {
        return Some(TaskLeaseLost);
      }
      return None;
    }

    method CompleteTaskOnce(worker: string, id: TaskId, output: Json) returns (outcome: Outcome)
      requires Progress() == Begin(ld)
      modifies this, machine
      ensures outcome == CompleteTask(env, ld, worker, id, output)
    {
      hide LeaseCheck, EmitAndUpdate, PostProcess, CloseRun;
      var lost := CheckLease(worker, id);
      if lost.Some? {
        return Rejected(lost.value);
      }
      assert id in machine.tasks by { CheckedTask(ld, worker, id); }
      var current := machine.tasks[id];
      var err := RecordAndUpdate(current.stepId, id,
                                 TaskCompleted(id, current.stepId, worker, NormalizeJson(output),
                                               current.phase.Compensation?));
      if err.Some? {
        return Rejected(err.value);
      }
      err := PostProcessTask();
      if err.Some? {
        return Rejected(err.value);
      }
      var run := Closing();
      return Append(run, events, mutations);
    }

    /** The failed attempt is followed by another: the row gets the new attempt and its time. */
    method RetryTask(id: TaskId, error: string) returns (err: Option<Error>)
      requires id in ld.state.core.tasks && ld.state.core.tasks[id].stepId in ld.def.steps && |mutations| == 1
      modifies this, machine
      ensures Did(RetryWork(env, ld, old(Progress()).(mutations := []), id, error), Progress(), err)
    {
      hide Apply;
      var t := ld.state.core.tasks[id];
      var policy := ld.def.steps[t.stepId].retry.Normalize();
      var backoff := ComputeBackoff(policy, t.attempt);
      hide BackoffForAttempt;
      var nextAt := env.now + backoff;
      err := Record(t.stepId, Some(id), TaskRetryScheduled(id, t.stepId, t.attempt + 1, nextAt, error));
      if err.Some? {
        return;
      }
      if id !in machine.tasks {
        return Some(UnknownTask(id));
      }
      var row := UpdateRow(Row(ld, id), machine.tasks[id], env.now);
      row := row.(attempt := t.attempt + 1, availableAt := nextAt, lastError := error);
      mutations := mutations[0 := Update(row)];
      assert mutations == [Update(row)];
    }

    /** The attempt was the last: the failure is noted and the run is unwound. */
    method FailForGood(id: TaskId, error: string) returns (err: Option<Error>)
      requires id in ld.state.core.tasks
      modifies this, machine
      ensures var t := ld.state.core.tasks[id];
              var failure := if t.phase.Compensation? then CompensationFailure(t.stepId, error) else error;
              var state := old(machine.State()).(run := old(machine.run).(failure := failure));
              Did(BeginCompensationOrFinish(env, old(Progress()).(state := state)), Progress(), err)
    {
      hide BeginCompensationOrFinish;
      var t := ld.state.core.tasks[id];
      if t.phase.Compensation? {
        machine.run := machine.run.(failure := CompensationFailure(t.stepId, error));
      } else {
        machine.run := machine.run.(failure := error);
      }
      err := BeginUnwinding();
    }

    method FailTaskOnce(worker: string, id: TaskId, error: string, retryable: bool) returns (outcome: Outcome)
      requires Progress() == Begin(ld)
      modifies this, machine
      ensures outcome == FailTask(env, ld, worker, id, error, retryable)
    {
      hide LeaseCheck, Emit, RetryWork, BeginCompensationOrFinish, CloseRun, UpdateRow, Row;
      var lost := CheckLease(worker, id);
      if lost.Some? {
        return Rejected(lost.value);
      }
      CheckedTask(ld, worker, id);
      var t := ld.state.core.tasks[id];
      var err := Record(t.stepId, Some(id), TaskFailed(id, t.stepId, worker, error, t.phase.Compensation?));
      if err.Some? {
        return Rejected(err.value);
      }
      FailedTaskIsKnown(env, Begin(ld), id, t.stepId, worker, error, t.phase.Compensation?);
      err := UpdateTask(id);
      if !t.phase.Compensation? && retryable && !machine.cancelRequested
         && t.stepId in ld.def.steps && t.attempt < MaxAttempts(ld.def.steps[t.stepId]) {
        err := RetryTask(id, error);
        if err.Some? {
          return Rejected(err.value);
        }
        return Append(machine.run.(version := |ld.events| + |events|, updatedAt := env.now), events, mutations);
      }
      err := FailForGood(id, error);
      if err.Some? {
        return Rejected(err.value);
      }
      var run := Closing();
      return Append(run, events, mutations);
    }

    /** The loop that revokes the listed tasks that are still open. */
    method RevokeTasks(reason: string) returns (err: Option<Error>)
      modifies this, machine
      ensures Did(CancelTasks(env, ld, old(Progress()), ld.listing, reason), Progress(), err)
    {
      hide CancelOne;
      var i := 0;
      while i < |ld.listing|
        invariant 0 <= i <= |ld.listing|
        invariant CancelTasks(env, ld, old(Progress()), ld.listing[..i], reason) == Ok(Progress())
      {
        assert ld.listing[..i + 1][..i] == ld.listing[..i];
        var e := RevokeTask(ld.listing[i], reason);
        if e.Some? {
          RevokeFails(env, ld, old(Progress()), ld.listing, reason, i + 1);
          return e;
        }
        i := i + 1;
      }
      assert ld.listing[..i] == ld.listing;
      return None;
    }

    method RevokeTask(id: TaskId, reason: string) returns (err: Option<Error>)
      modifies this, machine
      ensures Did(CancelOne(env, ld, old(Progress()), id, reason), Progress(), err)
    {
      hide EmitAndUpdate, Row;
      if id !in machine.tasks {
        return None;
      }
      var t := machine.tasks[id];
      if t.status.Completed? || t.status.Cancelled? || t.status.Failed? {
        return None;
      }
      err := RecordAndUpdate(Row(ld, id).stepId, id,
                             TaskCancelled(id, Row(ld, id).stepId, reason, t.phase.Compensation?));
    }

    method CancelRunOnce(reason: string) returns (outcome: Outcome)
      requires Progress() == Begin(ld)
      modifies this, machine
      ensures outcome == CancelRun(env, ld, reason)
    {
      hide Emit, CancelTasks, BeginCompensationOrFinish, CloseRun;
      if ld.run.status.Terminal() {
        return Unchanged;
      }
      var err := Record("", None, RunCancelRequested(reason));
      if err.Some? {
        return Rejected(err.value);
      }
      err := RevokeTasks(reason);
      if err.Some? {
        return Rejected(err.value);
      }
      err := BeginUnwinding();
      if err.Some? {
        return Rejected(err.value);
      }
      var run := Closing();
      return Append(run, events, mutations);
    }

    method FireTimerOnce(id: TaskId) returns (outcome: Outcome)
      requires Progress() == Begin(ld)
      modifies this, machine
      ensures outcome == FireTimer(env, ld, id)
    {
      hide EmitAndUpdate, PostProcess, CloseRun;
      if id !in machine.tasks || !machine.tasks[id].kind.Timer? || !machine.tasks[id].status.Available? {
        return Unchanged;
      }
      if machine.tasks[id].availableAt > env.now {
        return Unchanged;
      }
      var stepId := machine.tasks[id].stepId;
      var err := RecordAndUpdate(stepId, id, TimerFired(id, stepId));
      if err.Some? {
        return Rejected(err.value);
      }
      err := PostProcessTask();
      if err.Some? {
        return Rejected(err.value);
      }
      var run := Closing();
      return Append(run, events, mutations);
    }
  }

  lemma CompensatingKeepsSteps(env: Env, w: Work, reason: string)
    ensures Emit(env, w, "", None, RunCompensating(reason)).Ok?
    ensures Emit(env, w, "", None, RunCompensating(reason)).value.state.core.steps == w.state.core.steps
  {
  }

  lemma FailedTaskIsKnown(env: Env, w: Work, id: TaskId, x: StepId, worker: string, error: string, compensation: bool)
    requires Emit(env, w, x, Some(id), TaskFailed(id, x, worker, error, compensation)).Ok?
    ensures var w' := Emit(env, w, x, Some(id), TaskFailed(id, x, worker, error, compensation)).value;
            id in w'.state.core.tasks && w'.mutations == w.mutations
  {
  }

  lemma InsertsNone(mutations: seq<Mutation>)
    ensures mutations + Inserts([]) == mutations
  {
  }

  lemma InsertsOne(mutations: seq<Mutation>, task: TaskRecord)
    ensures mutations + Inserts([task]) == mutations + [Insert(task)]
  {
  }

  lemma InsertsMore(mutations: seq<Mutation>, tasks: seq<TaskRecord>, more: seq<TaskRecord>)
    ensures mutations + Inserts(tasks) + Inserts(more) == mutations + Inserts(tasks + more)
  {
  }

  lemma {:induction false} ReadyFails(env: Env, w: Work, order: seq<StepId>, n: nat)
    requires n <= |order| && ScheduleForwardReady(env, w, order[..n]).Err?
    ensures ScheduleForwardReady(env, w, order) == ScheduleForwardReady(env, w, order[..n])
  {
    hide ScheduleIfReady;
    if n == |order| {
      assert order[..n] == order;
    } else {
      var init := order[..|order| - 1];
      assert init[..n] == order[..n];
      ReadyFails(env, w, init, n);
    }
  }

  lemma {:induction false} RevokeFails(env: Env, ld: Loaded, w: Work, list: seq<TaskId>, reason: string, n: nat)
    requires n <= |list| && CancelTasks(env, ld, w, list[..n], reason).Err?
    ensures CancelTasks(env, ld, w, list, reason) == CancelTasks(env, ld, w, list[..n], reason)
  {
    hide CancelOne;
    if n == |list| {
      assert list[..n] == list;
    } else {
      var init := list[..|list| - 1];
      assert init[..n] == list[..n];
      RevokeFails(env, ld, w, init, reason, n);
    }
  }

  /** The command that makes a new run. */
  method StartRunOnce(env: Env, def: Definition, input: Json) returns (outcome: Outcome)
    requires Filed(def.steps, def.order)
    ensures outcome == StartRun(env, def, input)
  {
    hide ScheduleForwardReady, Replay, Inserts;
    var run := NewRun(env, def.name, NormalizeJson(input));
    var started := StartedEvent(env, def.name, NormalizeJson(input));
    var machine, err := ReplayHistory(def, run, [started]);
    if err.Some? {
      return Rejected(err.value);
    }
    var session := new CommandSession.ForNewRun(env, def, run, started, machine);
    var e, ready, tasks := session.ScheduleReadySteps();
    if e.Some? {
      return Rejected(e.value);
    }
    session.events := session.events + ready;
    return Append(run.(version := |session.events|), session.events, session.mutations + Inserts(tasks));
  }
}
