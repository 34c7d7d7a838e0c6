/** Replay: the fold of a run's history into its state (internal/engine/reducer.go). */
module Reducer {
  import opened Prelude
  import opened Workflow
  import opened History
  import opened Engine

  // ------------------------------------------------------------------ one event

  function ApplyScheduled(s: Core, p: Payload): Result<Core, Error>
    requires p.TaskScheduled?
  {
    if p.stepId !in s.steps then Err(UnknownStep(p.stepId))
    else
      var phase := if p.compensation then Compensation else Forward;
      var task := TaskState(p.taskId, p.stepId, p.kind, phase, Available, p.attempt, p.availableAt, "", None, None,
                            None, "");
      var step := s.steps[p.stepId];
      var step' := if p.compensation
                   then step.(compensationScheduled := true, compensationTaskId := Some(p.taskId))
                   else step.(forwardStatus := Some(Available), forwardTaskId := Some(p.taskId),
                              forwardAttempt := p.attempt);
      Ok(s.(tasks := s.tasks[p.taskId := task], steps := s.steps[p.stepId := step']))
  }

  function ApplyLeased(s: Core, p: Payload): Result<Core, Error>
    requires p.TaskLeased?
  {
    if p.taskId !in s.tasks then Err(UnknownTask(p.taskId))
    else
      var task := s.tasks[p.taskId].(status := Leased, leaseOwner := p.workerId,
                                     leaseExpiresAt := Some(p.leaseExpiresAt));
      var steps := if p.stepId in s.steps && task.phase.Forward?
                   then s.steps[p.stepId := s.steps[p.stepId].(forwardStatus := Some(Leased))]
                   else s.steps;
      Ok(s.(tasks := s.tasks[p.taskId := task], steps := steps))
  }

  function ApplyHeartbeat(s: Core, e: Event): Result<Core, Error>
    requires e.payload.TaskHeartbeat?
  {
    if e.taskId.None? || e.taskId.value !in s.tasks then Err(UnknownTask(e.taskId.GetOr(0)))
    else
      var task := s.tasks[e.taskId.value].(
        leaseOwner := e.payload.workerId, leaseExpiresAt := Some(e.payload.leaseExpiresAt),
            heartbeatAt := Some(e.createdAt));
      Ok(s.(tasks := s.tasks[e.taskId.value := task]))
  }

  function Completing(order: seq<StepId>, stepId: StepId): seq<StepId> {
    if stepId in order then order else order + [stepId]
  }

  function ApplyCompleted(s: Core, p: Payload): Result<Core, Error>
    requires p.TaskCompleted?
  {
    if p.taskId !in s.tasks then Err(UnknownTask(p.taskId))
    else if p.stepId !in s.steps then Err(UnknownStep(p.stepId))
    else
      var task := s.tasks[p.taskId].(status := TaskStatus.Completed, output := Some(p.output),
                                     leaseOwner := p.workerId, leaseExpiresAt := None);
      var s' := s.(tasks := s.tasks[p.taskId := task]);
      var step := s.steps[p.stepId];
      if p.compensation then
        Ok(s'.(steps := s.steps[p.stepId := step.(compensationCompleted := true,
                                                  compensationOutput := Some(p.output))]))
      else
        Ok(s'.(steps := s.steps[p.stepId := step.(forwardStatus := Some(TaskStatus.Completed),
                                                  forwardOutput := Some(p.output))],
               outputs := s.outputs[p.stepId := p.output],
               completedOrder := Completing(s.completedOrder, p.stepId)))
  }

  function ApplyFailed(s: Core, p: Payload): Result<Core, Error>
    requires p.TaskFailed?
  {
    if p.taskId !in s.tasks then Err(UnknownTask(p.taskId))
    else if p.stepId !in s.steps then Err(UnknownStep(p.stepId))
    else
      var task := s.tasks[p.taskId].(status := TaskStatus.Failed, error := p.error, leaseOwner := p.workerId,
                                     leaseExpiresAt := None);
      var step := s.steps[p.stepId];
      var step' := if p.compensation
                   then step.(compensationFailed := true, compensationError := p.error)
                   else step.(forwardStatus := Some(TaskStatus.Failed), forwardError := p.error);
      Ok(s.(tasks := s.tasks[p.taskId := task], steps := s.steps[p.stepId := step']))
  }

  function ApplyRetry(s: Core, p: Payload): Result<Core, Error>
    requires p.TaskRetryScheduled?
  {
    if p.taskId !in s.tasks then Err(UnknownTask(p.taskId))
    else
      var task := s.tasks[p.taskId].(status := Available, attempt := p.attempt, availableAt := p.availableAt,
                                     error := p.error, leaseOwner := "", leaseExpiresAt := None);
      var steps := if p.stepId in s.steps && task.phase.Forward?
                   then s.steps[p.stepId := s.steps[p.stepId].(
                                forwardStatus := Some(Available), forwardAttempt := p.attempt, forwardError := p.error)]
                   else s.steps;
      Ok(s.(tasks := s.tasks[p.taskId := task], steps := steps))
  }

  function ApplyLeaseExpired(s: Core, p: Payload): Result<Core, Error>
    requires p.TaskLeaseExpired?
  {
    if p.taskId !in s.tasks then Err(UnknownTask(p.taskId))
    else
      var task := s.tasks[p.taskId].(status := TaskStatus.Failed, error := p.error, leaseOwner := "",
                                     leaseExpiresAt := None);
      Ok(s.(tasks := s.tasks[p.taskId := task]))
  }

  function ApplyCancelled(s: Core, p: Payload): Result<Core, Error>
    requires p.TaskCancelled?
  {
    if p.taskId !in s.tasks then Err(UnknownTask(p.taskId))
    else
      var task := s.tasks[p.taskId].(status := TaskStatus.Cancelled, error := p.reason, leaseOwner := "",
                                     leaseExpiresAt := None);
      var steps := if p.stepId in s.steps && !p.compensation
                   then s.steps[p.stepId := s.steps[p.stepId].(forwardStatus := Some(TaskStatus.Cancelled),
                                                               forwardError := p.reason)]
                   else s.steps;
      Ok(s.(tasks := s.tasks[p.taskId := task], steps := steps))
  }

  function ApplyTimerFired(s: Core, p: Payload): Result<Core, Error>
    requires p.TimerFired?
  {
    if p.taskId !in s.tasks then Err(UnknownTask(p.taskId))
    else if p.stepId !in s.steps then Err(UnknownStep(p.stepId))
    else
      var task := s.tasks[p.taskId].(status := TaskStatus.Completed, output := Some(Null));
      var step := s.steps[p.stepId].(forwardStatus := Some(TaskStatus.Completed), forwardOutput := Some(Null));
      Ok(s.(tasks := s.tasks[p.taskId := task], steps := s.steps[p.stepId := step],
            outputs := s.outputs[p.stepId := Null], completedOrder := Completing(s.completedOrder, p.stepId)))
  }

  /** What an event does to steps, tasks, outputs, order and flags. */
  function ApplyCore(s: Core, e: Event): Result<Core, Error> {
    match e.payload
    case WorkflowStarted(_, _) => Ok(s)
    case TaskScheduled(_, _, _, _, _, _, _, _, _, _) => ApplyScheduled(s, e.payload)
    case TaskLeased(_, _, _, _, _) => ApplyLeased(s, e.payload)
    case TaskHeartbeat(_, _, _) => ApplyHeartbeat(s, e)
    case TaskCompleted(_, _, _, _, _) => ApplyCompleted(s, e.payload)
    case TaskFailed(_, _, _, _, _) => ApplyFailed(s, e.payload)
    case TaskRetryScheduled(_, _, _, _, _) => ApplyRetry(s, e.payload)
    case TaskLeaseExpired(_, _, _) => ApplyLeaseExpired(s, e.payload)
    case TaskCancelled(_, _, _, _) => ApplyCancelled(s, e.payload)
    case TimerFired(_, _) => ApplyTimerFired(s, e.payload)
    case RunCancelRequested(_) => Ok(s.(cancelRequested := true))
    case RunCompensating(_) => Ok(s.(compensating := true))
    case RunCompleted(_) => Ok(s.(finished := true))
    case RunFailed(_) => Ok(s.(finished := true))
    case RunCancelled(_) => Ok(s.(finished := true))
  }

  /** What an event does to the run record. */
  function ApplyRun(r: RunRecord, cancelRequested: bool, e: Event): RunRecord {
    var run := r.(updatedAt := e.createdAt, version := e.sequence);
    match e.payload
    case WorkflowStarted(workflow, input) => run.(workflowName := workflow, input := input, status := Running)
    case RunCancelRequested(reason) => run.(cancelReason := reason, status := Cancelling)
    case RunCompensating(reason) =>
      if cancelRequested
      then run.(status := RunStatus.Compensating, cancelReason := reason)
      else run.(status := RunStatus.Compensating, failure := reason)
    case RunCompleted(output) =>
      run.(status := RunStatus.Completed, output := Some(output), completedAt := Some(e.createdAt))
    case RunFailed(error) =>
      run.(status := RunStatus.Failed, failure := error, completedAt := Some(e.createdAt))
    case RunCancelled(reason) =>
      run.(status := RunStatus.Cancelled, cancelReason := reason, completedAt := Some(e.createdAt))
    case _ => run
  }

  function Apply(s: RunState, e: Event): Result<RunState, Error> {
    var core :- ApplyCore(s.core, e);
    Ok(RunState(ApplyRun(s.run, s.core.cancelRequested, e), core))
  }

  // ------------------------------------------------------------------ the whole history

  function FreshStep(step: Step): StepState {
    StepState(step, None, None, 0, None, "", false, None, false, false, None, "")
  }

  function InitialCore(def: Definition): Core {
    Core(map id | id in def.steps :: FreshStep(def.steps[id]), map[], map[], [], false, false, false)
  }

  function Initial(def: Definition, run: RunRecord): RunState {
    RunState(run.(workflowName := if run.workflowName == "" then def.name else run.workflowName), InitialCore(def))
  }

  function FoldCore(s: Core, events: seq<Event>): Result<Core, Error> {
    if |events| == 0 then Ok(s)
    else
      var before :- FoldCore(s, events[..|events| - 1]);
      ApplyCore(before, events[|events| - 1])
  }

  function Fold(s: RunState, events: seq<Event>): Result<RunState, Error> {
    if |events| == 0 then Ok(s)
    else
      var before :- Fold(s, events[..|events| - 1]);
      Apply(before, events[|events| - 1])
  }

  function Replay(def: Definition, run: RunRecord, events: seq<Event>): Result<RunState, Error> {
    Fold(Initial(def, run), events)
  }

  lemma FoldCoreSnoc(s: Core, events: seq<Event>, e: Event)
    ensures FoldCore(s, events + [e]) ==
            if FoldCore(s, events).Ok? then ApplyCore(FoldCore(s, events).value, e) else FoldCore(s, events)
  {
    hide ApplyCore;
    assert (events + [e])[..|events|] == events;
  }

  lemma FoldSnoc(s: RunState, events: seq<Event>, e: Event)
    ensures Fold(s, events + [e]) ==
            if Fold(s, events).Ok? then Apply(Fold(s, events).value, e) else Fold(s, events)
  {
    hide Apply;
    assert (events + [e])[..|events|] == events;
  }

  lemma {:induction false} FoldCoreConcat(s: Core, first: seq<Event>, second: seq<Event>)
    ensures FoldCore(s, first + second) ==
            if FoldCore(s, first).Ok? then FoldCore(FoldCore(s, first).value, second) else FoldCore(s, first)
  {
    hide ApplyCore;
    if second == [] {
      assert first + second == first;
    } else {
      var last := |second| - 1;
      FoldCoreConcat(s, first, second[..last]);
      assert first + second == (first + second[..last]) + [second[last]];
      FoldCoreSnoc(s, first + second[..last], second[last]);
    }
  }

  lemma {:induction false} FoldConcat(s: RunState, first: seq<Event>, second: seq<Event>)
    ensures Fold(s, first + second) ==
            if Fold(s, first).Ok? then Fold(Fold(s, first).value, second) else Fold(s, first)
  {
    hide Apply;
    if second == [] {
      assert first + second == first;
    } else {
      var last := |second| - 1;
      FoldConcat(s, first, second[..last]);
      assert first + second == (first + second[..last]) + [second[last]];
      FoldSnoc(s, first + second[..last], second[last]);
    }
  }

  /** Replay computes the core from the events alone: the stored run record plays no part. */
  lemma {:induction false} FoldIsCoreFold(s: RunState, events: seq<Event>)
    ensures Fold(s, events).Ok? == FoldCore(s.core, events).Ok?
    ensures Fold(s, events).Ok? ==> Fold(s, events).value.core == FoldCore(s.core, events).value
  {
    hide ApplyCore, ApplyRun;
    if events != [] {
      FoldIsCoreFold(s, events[..|events| - 1]);
    }
  }

  // ------------------------------------------------------------------ read-only scans

  predicate DependenciesCompleted(step: Step, outputs: map<StepId, Json>) {
    forall k :: 0 <= k < |step.dependencies| ==> step.dependencies[k] in outputs
  }

  // ------------------------------------------------------------------ retry delays

  /** `backoff *= 2` on a 64-bit duration. */
  function Wrap64(x: int): int {
    (x + 0x8000_0000_0000_0000) % 0x1_0000_0000_0000_0000 - 0x8000_0000_0000_0000
  }

  /** The delay after `attempt` failed attempts: `backoff` doubled from attempt `i` on, until it reaches the maximum. */
  function BackoffFrom(maximum: int, backoff: int, i: int, attempt: int): int
    decreases attempt - i
  {
    if i >= attempt then backoff
    else if Wrap64(backoff * 2) >= maximum then maximum
    else BackoffFrom(maximum, Wrap64(backoff * 2), i + 1, attempt)
  }

  function BackoffForAttempt(policy: RetryPolicy, attempt: int): int {
    BackoffFrom(policy.Normalize().maxBackoff, policy.Normalize().initialBackoff, 1, attempt)
  }
}
