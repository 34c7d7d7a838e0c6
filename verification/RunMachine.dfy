/** Replay as the source does it: one state, changed in place event by event (internal/engine/reducer.go). */
module RunMachine {
  import opened Prelude
  import opened Workflow
  import opened History
  import opened Engine
  import opened Reducer

  /** An in-place step did what the function says: it left `core`, or it reported the error. */
  predicate Reports(result: Result<Core, Error>, core: Core, err: Option<Error>) {
    if result.Ok? then err.None? && core == result.value else err == Some(result.error)
  }

  class Machine {
    var run: RunRecord
    var steps: map<StepId, StepState>
    var tasks: map<TaskId, TaskState>
    var outputs: map<StepId, Json>
    var completedOrder: seq<StepId>
    var cancelRequested: bool
    var compensating: bool
    var finished: bool

    function CoreState(): Core
      reads this
    {
      Core(steps, tasks, outputs, completedOrder, cancelRequested, compensating, finished)
    }

    function State(): RunState
      reads this
    {
      RunState(run, CoreState())
    }

    /** The state before the first event. */
    constructor (def: Definition, run: RunRecord)
      requires Filed(def.steps, def.order)
      ensures State() == Initial(def, run)
    {
      this.run := run.(workflowName := if run.workflowName == "" then def.name else run.workflowName);
      steps, tasks, outputs, completedOrder := map[], map[], map[], [];
      cancelRequested, compensating, finished := false, false, false;
      new;
      AddSteps(def);
    }

    /** Every step of the definition, as yet untouched. */
    method AddSteps(def: Definition)
      requires Filed(def.steps, def.order) && steps == map[]
      modifies this`steps
      ensures steps == InitialCore(def).steps
    {
      var i := 0;
      while i < |def.order|
        invariant 0 <= i <= |def.order|
        invariant forall x :: x in steps <==> x in def.order[..i]
        invariant forall x :: x in steps ==> steps[x] == FreshStep(def.steps[x])
      {
        steps := steps[def.order[i] := FreshStep(def.steps[def.order[i]])];
        i := i + 1;
      }
      assert def.order[..i] == def.order;
    }

    /** Marks a step as completed with `output`, and lists it unless it is listed already. */
    method FinishStep(x: StepId, output: Json)
      requires x in steps
      modifies this
      ensures CoreState() == old(CoreState()).(
                steps := old(steps)[x := old(steps)[x].(forwardStatus := Some(TaskStatus.Completed),
                                                        forwardOutput := Some(output))],
                outputs := old(outputs)[x := output],
                completedOrder := Completing(old(completedOrder), x))
      ensures run == old(run)
    {
      steps := steps[x := steps[x].(forwardStatus := Some(TaskStatus.Completed), forwardOutput := Some(output))];
      outputs := outputs[x := output];
      if x !in completedOrder {
        completedOrder := completedOrder + [x];
      }
    }

    /** Applies one event; after an error the state is given up. */
    method ApplyEvent(e: Event) returns (err: Option<Error>)
      modifies this
      ensures Apply(old(State()), e).Ok? ==> err.None? && State() == Apply(old(State()), e).value
      ensures Apply(old(State()), e).Err? ==> err == Some(Apply(old(State()), e).error)
    {
      hide ApplyScheduled, ApplyLeased, ApplyHeartbeat, ApplyCompleted, ApplyFailed, ApplyRetry, ApplyLeaseExpired,
           ApplyCancelled, ApplyTimerFired;
      run := run.(updatedAt := e.createdAt, version := e.sequence);
      match e.payload {
        case WorkflowStarted(workflow, input) =>
          run := run.(workflowName := workflow, input := input, status := Running);
          err := None;
        case TaskScheduled(_, _, _, _, _, _, _, _, _, _) => err := ApplyTaskScheduled(e.payload);
        case TaskLeased(_, _, _, _, _) => err := ApplyTaskLeased(e.payload);
        case TaskHeartbeat(_, _, _) => err := ApplyTaskHeartbeat(e);
        case TaskCompleted(_, _, _, _, _) => err := ApplyTaskCompleted(e.payload);
        case TaskFailed(_, _, _, _, _) => err := ApplyTaskFailed(e.payload);
        case TaskRetryScheduled(_, _, _, _, _) => err := ApplyTaskRetry(e.payload);
        case TaskLeaseExpired(_, _, _) => err := ApplyTaskLeaseExpired(e.payload);
        case TaskCancelled(_, _, _, _) => err := ApplyTaskCancelled(e.payload);
        case TimerFired(_, _) => err := ApplyTimer(e.payload);
        case RunCancelRequested(reason) =>
          cancelRequested := true;
          run := run.(cancelReason := reason, status := Cancelling);
          err := None;
        case RunCompensating(reason) =>
          compensating := true;
          run := run.(status := RunStatus.Compensating);
          if cancelRequested {
            run := run.(cancelReason := reason);
          } else {
            run := run.(failure := reason);
          }
          err := None;
        case RunCompleted(output) =>
          run := run.(status := RunStatus.Completed, output := Some(output), completedAt := Some(e.createdAt));
          finished := true;
          err := None;
        case RunFailed(error) =>
          run := run.(status := RunStatus.Failed, failure := error, completedAt := Some(e.createdAt));
          finished := true;
          err := None;
        case RunCancelled(reason) =>
          run := run.(status := RunStatus.Cancelled, cancelReason := reason, completedAt := Some(e.createdAt));
          finished := true;
          err := None;
      }
    }

    method ApplyTaskLeased(p: Payload) returns (err: Option<Error>)
      requires p.TaskLeased?
      modifies this
      ensures run == old(run) && Reports(ApplyLeased(old(CoreState()), p), CoreState(), err)
    {
      if p.taskId !in tasks {
        return Some(UnknownTask(p.taskId));
      }
      tasks := tasks[p.taskId := tasks[p.taskId].(status := Leased, leaseOwner := p.workerId,
                                                  leaseExpiresAt := Some(p.leaseExpiresAt))];
      if p.stepId in steps && tasks[p.taskId].phase.Forward? {
        steps := steps[p.stepId := steps[p.stepId].(forwardStatus := Some(Leased))];
      }
      return None;
    }

    method ApplyTaskHeartbeat(e: Event) returns (err: Option<Error>)
      requires e.payload.TaskHeartbeat?
      modifies this
      ensures run == old(run) && Reports(ApplyHeartbeat(old(CoreState()), e), CoreState(), err)
    {
      if e.taskId.None? || e.taskId.value !in tasks {
        return Some(UnknownTask(e.taskId.GetOr(0)));
      }
      tasks := tasks[e.taskId.value := tasks[e.taskId.value].(
                       leaseOwner := e.payload.workerId, leaseExpiresAt := Some(e.payload.leaseExpiresAt),
                       heartbeatAt := Some(e.createdAt))];
      return None;
    }

    method ApplyTaskRetry(p: Payload) returns (err: Option<Error>)
      requires p.TaskRetryScheduled?
      modifies this
      ensures run == old(run) && Reports(ApplyRetry(old(CoreState()), p), CoreState(), err)
    {
      if p.taskId !in tasks {
        return Some(UnknownTask(p.taskId));
      }
      tasks := tasks[p.taskId := tasks[p.taskId].(status := Available, attempt := p.attempt,
                                                  availableAt := p.availableAt,
                                                  error := p.error, leaseOwner := "", leaseExpiresAt := None)];
      if p.stepId in steps && tasks[p.taskId].phase.Forward? {
        steps := steps[p.stepId := steps[p.stepId].(
                         forwardStatus := Some(Available), forwardAttempt := p.attempt, forwardError := p.error)];
      }
      return None;
    }

    method ApplyTaskLeaseExpired(p: Payload) returns (err: Option<Error>)
      requires p.TaskLeaseExpired?
      modifies this
      ensures run == old(run) && Reports(ApplyLeaseExpired(old(CoreState()), p), CoreState(), err)
    {
      if p.taskId !in tasks {
        return Some(UnknownTask(p.taskId));
      }
      tasks := tasks[p.taskId := tasks[p.taskId].(status := TaskStatus.Failed, error := p.error, leaseOwner := "",
                                                  leaseExpiresAt := None)];
      return None;
    }

    method ApplyTaskCancelled(p: Payload) returns (err: Option<Error>)
      requires p.TaskCancelled?
      modifies this
      ensures run == old(run) && Reports(ApplyCancelled(old(CoreState()), p), CoreState(), err)
    {
      if p.taskId !in tasks {
        return Some(UnknownTask(p.taskId));
      }
      tasks := tasks[p.taskId := tasks[p.taskId].(status := TaskStatus.Cancelled, error := p.reason, leaseOwner := "",
                                                  leaseExpiresAt := None)];
      if p.stepId in steps && !p.compensation {
        steps := steps[p.stepId := steps[p.stepId].(forwardStatus := Some(TaskStatus.Cancelled),
                                                    forwardError := p.reason)];
      }
      return None;
    }

    method ApplyTimer(p: Payload) returns (err: Option<Error>)
      requires p.TimerFired?
      modifies this
      ensures run == old(run) && Reports(ApplyTimerFired(old(CoreState()), p), CoreState(), err)
    {
      if p.taskId !in tasks {
        return Some(UnknownTask(p.taskId));
      }
      tasks := tasks[p.taskId := tasks[p.taskId].(status := TaskStatus.Completed, output := Some(Null))];
      if p.stepId !in steps {
        return Some(UnknownStep(p.stepId));
      }
      FinishStep(p.stepId, Null);
      return None;
    }

    method ApplyTaskScheduled(p: Payload) returns (err: Option<Error>)
      requires p.TaskScheduled?
      modifies this
      ensures run == old(run) && Reports(ApplyScheduled(old(CoreState()), p), CoreState(), err)
    {
      tasks := tasks[p.taskId := TaskState(p.taskId, p.stepId, p.kind, if p.compensation then Compensation else Forward,
                                           Available, p.attempt, p.availableAt, "", None, None, None, "")];
      if p.stepId !in steps {
        return Some(UnknownStep(p.stepId));
      }
      if p.compensation {
        steps := steps[p.stepId := steps[p.stepId].(compensationScheduled := true,
                                                    compensationTaskId := Some(p.taskId))];
      } else {
        steps := steps[p.stepId := steps[p.stepId].(
                         forwardStatus := Some(Available), forwardTaskId := Some(p.taskId),
                             forwardAttempt := p.attempt)];
      }
      return None;
    }

    method ApplyTaskCompleted(p: Payload) returns (err: Option<Error>)
      requires p.TaskCompleted?
      modifies this
      ensures run == old(run) && Reports(ApplyCompleted(old(CoreState()), p), CoreState(), err)
    {
      if p.taskId !in tasks {
        return Some(UnknownTask(p.taskId));
      }
      tasks := tasks[p.taskId := tasks[p.taskId].(
                       status := TaskStatus.Completed, output := Some(p.output), leaseOwner := p.workerId,
                           leaseExpiresAt := None)];
      if p.stepId !in steps {
        return Some(UnknownStep(p.stepId));
      }
      if p.compensation {
        steps := steps[p.stepId := steps[p.stepId].(compensationCompleted := true,
                                                    compensationOutput := Some(p.output))];
      } else {
        FinishStep(p.stepId, p.output);
      }
      return None;
    }

    method ApplyTaskFailed(p: Payload) returns (err: Option<Error>)
      requires p.TaskFailed?
      modifies this
      ensures run == old(run) && Reports(ApplyFailed(old(CoreState()), p), CoreState(), err)
    {
      if p.taskId !in tasks {
        return Some(UnknownTask(p.taskId));
      }
      tasks := tasks[p.taskId := tasks[p.taskId].(
                       status := TaskStatus.Failed, error := p.error, leaseOwner := p.workerId,
                           leaseExpiresAt := None)];
      if p.stepId !in steps {
        return Some(UnknownStep(p.stepId));
      }
      if p.compensation {
        steps := steps[p.stepId := steps[p.stepId].(compensationFailed := true, compensationError := p.error)];
      } else {
        steps := steps[p.stepId := steps[p.stepId].(forwardStatus := Some(TaskStatus.Failed), forwardError := p.error)];
      }
      return None;
    }
  }

  /** Replays a history: the machine ends in the state that the fold computes. */
  method ReplayHistory(def: Definition, run: RunRecord, events: seq<Event>)
    returns (machine: Machine, err: Option<Error>)
    requires Filed(def.steps, def.order)
    ensures fresh(machine)
    ensures Replay(def, run, events).Ok? ==> err.None? && machine.State() == Replay(def, run, events).value
    ensures Replay(def, run, events).Err? ==> err == Some(Replay(def, run, events).error)
  {
    hide Apply;
    machine := new Machine(def, run);
    var i := 0;
    while i < |events|
      invariant 0 <= i <= |events|
      invariant Replay(def, run, events[..i]) == Ok(machine.State())
    {
      FoldSnoc(Initial(def, run), events[..i], events[i]);
      assert events[..i + 1] == events[..i] + [events[i]];
      err := machine.ApplyEvent(events[i]);
      if err.Some? {
        FoldFails(Initial(def, run), events, i + 1);
        return;
      }
      i := i + 1;
    }
    assert events[..i] == events;
    return machine, None;
  }

  /** An error met on the way is the error of the whole. */
  lemma {:induction false} FoldFails(s: RunState, events: seq<Event>, n: nat)
    requires n <= |events| && Fold(s, events[..n]).Err?
    ensures Fold(s, events) == Fold(s, events[..n])
  {
    hide Apply;
    if n == |events| {
      assert events[..n] == events;
    } else {
      var init := events[..|events| - 1];
      assert init[..n] == events[..n];
      FoldFails(s, init, n);
    }
  }
}
