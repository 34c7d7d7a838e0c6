/** Which events may follow a state, and what every state built from such events satisfies. */
module Invariant {
  import opened Prelude
  import opened Workflow
  import opened History
  import opened Engine
  import opened Reducer

  function MaxAttempts(step: Step): (m: int)
    ensures m >= 1
  {
    step.retry.Normalize().maxAttempts
  }

  /** The attempts declared, and one if none can be used. */
  lemma AttemptsDeclared(step: Step)
    ensures MaxAttempts(step) == if step.retry.maxAttempts >= 1 then step.retry.maxAttempts else 1
  {
  }

  // ------------------------------------------------------------------ compensation order

  predicate Eligible(steps: map<StepId, StepState>, x: StepId) {
    && x in steps
    && steps[x].definition.compensation != ""
    && !steps[x].compensationCompleted
    && !steps[x].compensationScheduled
  }

  /** The latest completed step, among the first `n`, whose compensation is still to be scheduled. */
  function LatestEligible(steps: map<StepId, StepState>, order: seq<StepId>, n: nat): (next: Option<StepId>)
    requires n <= |order|
    ensures next.Some? ==> exists i :: 0 <= i < n && order[i] == next.value && Eligible(steps, next.value)
                                       && forall j :: i < j < n ==> !Eligible(steps, order[j])
    ensures next.None? ==> forall j :: 0 <= j < n ==> !Eligible(steps, order[j])
  {
    if n == 0 then None
    else if Eligible(steps, order[n - 1]) then Some(order[n - 1])
    else LatestEligible(steps, order, n - 1)
  }

  function NextCompensation(s: Core): Option<StepId> {
    LatestEligible(s.steps, s.completedOrder, |s.completedOrder|)
  }

  // ------------------------------------------------------------------ legal events

  predicate HasTask(s: Core, id: TaskId, x: StepId, status: TaskStatus) {
    id in s.tasks && s.tasks[id].stepId == x && s.tasks[id].status == status
  }

  predicate AllCompleted(s: Core) {
    forall x :: x in s.steps ==> s.steps[x].forwardStatus == Some(TaskStatus.Completed)
  }

  predicate SchedulesForward(s: Core, x: StepId) {
    && x in s.steps && s.steps[x].forwardTaskId.None?
    && DependenciesCompleted(s.steps[x].definition, s.outputs)
    && !s.compensating && !s.cancelRequested
  }

  /** The outputs handed to a task: those of its dependencies, and its own when it compensates. */
  function TaskInput(outputs: map<StepId, Json>, own: StepId, dependencies: seq<StepId>,
                     compensation: bool): (input: map<StepId, Json>)
    ensures forall x :: x in input <==> x in outputs && (x in dependencies || (compensation && x == own))
    ensures forall x :: x in input ==> input[x] == outputs[x]
  {
    map x | x in outputs && (x in dependencies || (compensation && x == own)) :: outputs[x]
  }

  const TIMER_QUEUE := "__orchid_timers__"

  /** The compensation of a step is an activity on the compensation queue, if one is named. */
  function CompensationStep(step: Step): Step {
    step.(kind := Activity, activity := step.compensation,
          queue := if step.compensationQueue != "" then step.compensationQueue else step.queue)
  }

  /** A new task is for what the step names, is due at once or after the delay of its timer, and is handed the outputs
      recorded so far. */
  predicate FitsStep(outputs: map<StepId, Json>, step: Step, e: Event)
    requires e.payload.TaskScheduled?
  {
    var p := e.payload;
    var work := if p.compensation then CompensationStep(step) else step;
    && p.kind == work.kind
    && p.queue == (if work.kind.Timer? then TIMER_QUEUE else work.queue)
    && p.activity == (if work.kind.Timer? then "" else work.activity)
    && p.maxAttempts == (if work.kind.Timer? then 1 else MaxAttempts(step))
    && p.availableAt == e.createdAt + (if work.kind.Timer? then step.delay else 0)
    && p.dependencies == TaskInput(outputs, step.id, step.dependencies, p.compensation)
  }

  /** The output of a completed run: those of its steps. */
  function RunOutput(s: Core): Json {
    if |s.outputs| == 0 then Null else Object(s.outputs)
  }

  /** Once a run is being cancelled, forward tasks are no longer worked on. */
  predicate StillWanted(s: Core, id: TaskId)
    requires id in s.tasks
  {
    s.cancelRequested ==> s.tasks[id].phase.Compensation?
  }

  /** The guard under which the engine and the store append `e` to a history that replays to `s`. */
  predicate Legal(s: Core, e: Event) {
    match e.payload
    case WorkflowStarted(_, _) =>
      e.sequence == 1 && s.tasks == map[] && !s.cancelRequested && !s.compensating && !s.finished
    case TaskScheduled(id, x, kind, _, _, attempt, _, _, _, compensation) =>
      && e.sequence > 1 && id !in s.tasks && attempt == 1
      && x in s.steps && FitsStep(s.outputs, s.steps[x].definition, e)
      && if compensation
         then s.compensating && NextCompensation(s) == Some(x) && kind.Activity?
         else SchedulesForward(s, x) && kind == s.steps[x].definition.kind
    case TaskLeased(id, x, _, attempt, _) =>
      && e.sequence > 1 && HasTask(s, id, x, Available) && s.tasks[id].kind.Activity? && attempt == s.tasks[id].attempt
      && s.tasks[id].availableAt < e.createdAt + SECOND && StillWanted(s, id)
    case TaskHeartbeat(id, worker, _) =>
      && e.sequence > 1 && e.taskId == Some(id) && id in s.tasks
      && s.tasks[id].status.Leased? && s.tasks[id].leaseOwner == worker && StillWanted(s, id)
    case TaskCompleted(id, x, worker, _, compensation) =>
      && e.sequence > 1 && HasTask(s, id, x, Leased)
      && s.tasks[id].leaseOwner == worker && compensation == s.tasks[id].phase.Compensation? && StillWanted(s, id)
    case TaskFailed(id, x, worker, _, compensation) =>
      && e.sequence > 1 && HasTask(s, id, x, Leased)
      && s.tasks[id].leaseOwner == worker && compensation == s.tasks[id].phase.Compensation? && StillWanted(s, id)
    case TaskRetryScheduled(id, x, attempt, availableAt, error) =>
      && e.sequence > 1 && HasTask(s, id, x, TaskStatus.Failed) && x in s.steps && error == s.tasks[id].error
      && s.tasks[id].phase.Forward? && !s.cancelRequested
      && attempt == s.tasks[id].attempt + 1 <= MaxAttempts(s.steps[x].definition)
      && availableAt == e.createdAt + BackoffForAttempt(s.steps[x].definition.retry.Normalize(), s.tasks[id].attempt)
    case TaskLeaseExpired(_, _, _) => false
    case TaskCancelled(id, x, _, compensation) =>
      && e.sequence > 1 && id in s.tasks && s.tasks[id].stepId == x && s.tasks[id].status.Open()
      && s.cancelRequested && compensation == s.tasks[id].phase.Compensation?
    case TimerFired(id, x) =>
      && e.sequence > 1 && HasTask(s, id, x, Available) && s.tasks[id].kind.Timer?
      && s.tasks[id].availableAt <= e.createdAt && StillWanted(s, id)
    case RunCancelRequested(_) => e.sequence > 1
    case RunCompensating(_) => e.sequence > 1 && NextCompensation(s).Some?
    case RunCompleted(output) => e.sequence > 1 && AllCompleted(s) && !s.compensating && !s.cancelRequested
      && output == RunOutput(s)
    case RunFailed(_) => e.sequence > 1 && NextCompensation(s).None? && !s.cancelRequested
    case RunCancelled(_) => e.sequence > 1 && NextCompensation(s).None? && s.cancelRequested
  }

  // ------------------------------------------------------------------ the invariant

  predicate IsTaskOf(s: Core, id: TaskId, x: StepId, phase: TaskPhase) {
    id in s.tasks && s.tasks[id].stepId == x && s.tasks[id].phase == phase
  }

  predicate StepOk(def: Definition, s: Core, x: StepId)
    requires x in s.steps && x in def.steps
  {
    var step := s.steps[x];
    && step.definition == def.steps[x]
    && (step.forwardTaskId.None? ==> step.forwardStatus.None?)
    && (step.forwardTaskId.Some? ==>
          && IsTaskOf(s, step.forwardTaskId.value, x, Forward)
          && DependenciesCompleted(def.steps[x], s.outputs))
    && (step.compensationScheduled <==> step.compensationTaskId.Some?)
    && (step.compensationTaskId.Some? ==>
          && IsTaskOf(s, step.compensationTaskId.value, x, Compensation)
          && x in s.outputs && step.definition.compensation != "" && s.compensating)
    && (!step.compensationScheduled ==> !step.compensationCompleted)
    && (x in s.outputs <==> step.forwardStatus == Some(TaskStatus.Completed))
  }

  predicate TaskOk(s: Core, id: TaskId)
    requires id in s.tasks
  {
    var t := s.tasks[id];
    && t.id == id && t.stepId in s.steps
    && var step := s.steps[t.stepId];
    && (t.phase.Forward? ==>
          && step.forwardTaskId == Some(id) && step.forwardStatus == Some(t.status)
          && step.forwardAttempt == t.attempt && 1 <= t.attempt <= MaxAttempts(step.definition)
          && t.kind == step.definition.kind)
    && (t.phase.Compensation? ==>
          && step.compensationTaskId == Some(id) && t.attempt == 1 && t.kind.Activity?
          && (step.compensationCompleted <==> t.status.Completed?))
    && (t.kind.Timer? ==> !t.status.Leased? && !t.status.Failed?)
    && (t.status.Leased? ==> t.leaseExpiresAt.Some?)
  }

  ghost predicate OrderOk(def: Definition, order: seq<StepId>, outputs: map<StepId, Json>) {
    && NoDup(order)
    && (forall x :: x in order <==> x in outputs)
    && outputs.Keys <= def.steps.Keys
    && DependenciesFirst(def.steps, order)
  }

  ghost predicate Inv(def: Definition, s: Core) {
    && s.steps.Keys == def.steps.Keys
    && (forall x {:trigger StepOk(def, s, x)} :: x in s.steps ==> StepOk(def, s, x))
    && (forall id {:trigger TaskOk(s, id)} :: id in s.tasks ==> TaskOk(s, id))
    && OrderOk(def, s.completedOrder, s.outputs)
  }

  // ------------------------------------------------------------------ one lemma for each way a state changes

  lemma InitialInv(def: Definition)
    ensures Inv(def, InitialCore(def))
  {
  }

  /** A change of the flags that keeps every scheduled compensation explained. */
  lemma FlagsKeepInv(def: Definition, s: Core, s': Core)
    requires Inv(def, s)
    requires s'.steps == s.steps && s'.tasks == s.tasks && s'.outputs == s.outputs
             && s'.completedOrder == s.completedOrder
    requires s.compensating ==> s'.compensating
    ensures Inv(def, s')
  {
    hide OrderOk, DependenciesCompleted;
    forall y | y in s'.steps ensures StepOk(def, s', y) { assert StepOk(def, s, y); }
    forall k | k in s'.tasks ensures TaskOk(s', k) { assert TaskOk(s, k); }
  }

  /** A forward task changes status without completing. */
  lemma ForwardMoveKeepsInv(def: Definition, s: Core, s': Core, id: TaskId, t': TaskState, step': StepState)
    requires Inv(def, s) && id in s.tasks && s.tasks[id].stepId in s.steps && s.tasks[id].phase.Forward?
             && !s.tasks[id].status.Completed?
    requires var t := s.tasks[id];
             && t'.id == t.id && t'.stepId == t.stepId && t'.kind == t.kind && t'.phase == t.phase
             && s' == s.(tasks := s.tasks[id := t'], steps := s.steps[t.stepId := step'])
             && var step := s.steps[t.stepId];
             step' == step.(forwardStatus := Some(t'.status), forwardAttempt := t'.attempt,
                            forwardError := step'.forwardError)
    requires !t'.status.Completed? && 1 <= t'.attempt <= MaxAttempts(step'.definition)
    requires t'.kind.Timer? ==> !t'.status.Leased? && !t'.status.Failed?
    requires t'.status.Leased? ==> t'.leaseExpiresAt.Some?
    ensures Inv(def, s')
  {
    hide OrderOk, DependenciesCompleted;
    var x := s.tasks[id].stepId;
    assert TaskOk(s, id) && StepOk(def, s, x);
    forall y | y in s'.steps ensures StepOk(def, s', y) { assert StepOk(def, s, y); }
    forall k | k in s'.tasks ensures TaskOk(s', k) { assert k != id ==> TaskOk(s, k); }
  }

  lemma OrderGrows(def: Definition, order: seq<StepId>, outputs: map<StepId, Json>, x: StepId, output: Json)
    requires OrderOk(def, order, outputs) && x in def.steps && x !in outputs
    requires DependenciesCompleted(def.steps[x], outputs)
    ensures Completing(order, x) == order + [x] && OrderOk(def, order + [x], outputs[x := output])
  {
    var order' := order + [x];
    forall i, y | 0 <= i < |order'| && Workflow.DependsOn(def.steps, order'[i], y)
      ensures y in order'[..i]
    {
      assert order'[..i] == order[..i];
      if i == |order| {
        assert order[..i] == order;
        assert order'[i] == x;
      } else {
        assert order'[i] == order[i];
      }
    }
  }

  /** A forward task completes with an output. */
  lemma ForwardDoneKeepsInv(def: Definition, s: Core, s': Core, id: TaskId, t': TaskState, step': StepState,
                            output: Json)
    requires Inv(def, s) && id in s.tasks && s.tasks[id].stepId in s.steps && s.tasks[id].phase.Forward?
             && s.tasks[id].status.Open()
    requires var t := s.tasks[id];
             && t'.id == t.id && t'.stepId == t.stepId && t'.kind == t.kind && t'.phase == t.phase
             && t'.attempt == t.attempt && t'.status.Completed?
             && var step := s.steps[t.stepId];
             && step' == step.(forwardStatus := Some(TaskStatus.Completed), forwardOutput := step'.forwardOutput)
             && s' == s.(tasks := s.tasks[id := t'], steps := s.steps[t.stepId := step'],
                         outputs := s.outputs[t.stepId := output],
                             completedOrder := Completing(s.completedOrder, t.stepId))
    ensures Inv(def, s')
    ensures s'.completedOrder == s.completedOrder + [s.tasks[id].stepId]
  {
    hide OrderOk;
    var x := s.tasks[id].stepId;
    assert TaskOk(s, id) && StepOk(def, s, x);
    OrderGrows(def, s.completedOrder, s.outputs, x, output);
    forall y | y in s'.steps ensures StepOk(def, s', y) { assert StepOk(def, s, y); }
    forall k | k in s'.tasks ensures TaskOk(s', k) { assert k != id ==> TaskOk(s, k); }
  }

  /** A compensation task changes status. */
  lemma CompensationMoveKeepsInv(def: Definition, s: Core, s': Core, id: TaskId, t': TaskState, step': StepState)
    requires Inv(def, s) && id in s.tasks && s.tasks[id].stepId in s.steps && s.tasks[id].phase.Compensation?
             && s.tasks[id].status.Open()
    requires var t := s.tasks[id];
             && t'.id == t.id && t'.stepId == t.stepId && t'.kind == t.kind && t'.phase == t.phase
                  && t'.attempt == t.attempt
             && var step := s.steps[t.stepId];
             && step' == step.(compensationCompleted := t'.status.Completed?,
                               compensationFailed := step'.compensationFailed,
                               compensationOutput := step'.compensationOutput,
                                   compensationError := step'.compensationError)
             && s' == s.(tasks := s.tasks[id := t'], steps := s.steps[t.stepId := step'])
    requires t'.status.Leased? ==> t'.leaseExpiresAt.Some?
    ensures Inv(def, s')
  {
    hide OrderOk, DependenciesCompleted;
    var x := s.tasks[id].stepId;
    assert TaskOk(s, id) && StepOk(def, s, x);
    forall y | y in s'.steps ensures StepOk(def, s', y) { assert StepOk(def, s, y); }
    forall k | k in s'.tasks ensures TaskOk(s', k) { assert k != id ==> TaskOk(s, k); }
  }

  /** A lease is renewed. */
  lemma RenewalKeepsInv(def: Definition, s: Core, s': Core, id: TaskId, t': TaskState)
    requires Inv(def, s) && id in s.tasks
    requires t' == s.tasks[id].(leaseOwner := t'.leaseOwner, leaseExpiresAt := t'.leaseExpiresAt,
                                heartbeatAt := t'.heartbeatAt)
    requires t'.leaseExpiresAt.Some?
    requires s' == s.(tasks := s.tasks[id := t'])
    ensures Inv(def, s')
  {
    hide OrderOk, DependenciesCompleted;
    assert TaskOk(s, id);
    forall y | y in s'.steps ensures StepOk(def, s', y) { assert StepOk(def, s, y); }
    forall k | k in s'.tasks ensures TaskOk(s', k) { assert TaskOk(s, k); }
  }

  /** A new task appears, and the step it belongs to points at it. */
  lemma NewTaskKeepsInv(def: Definition, s: Core, s': Core, id: TaskId, x: StepId)
    requires Inv(def, s) && id !in s.tasks && x in s.steps && id in s'.tasks && x in s'.steps
    requires s' == s.(tasks := s.tasks[id := s'.tasks[id]], steps := s.steps[x := s'.steps[x]])
    requires var t := s'.tasks[id];
             t.id == id && t.stepId == x && t.status.Available? && t.attempt == 1
    requires s'.tasks[id].phase.Forward? ==>
               && SchedulesForward(s, x) && s'.tasks[id].kind == s.steps[x].definition.kind
               && s'.steps[x] == s.steps[x].(forwardStatus := Some(Available), forwardTaskId := Some(id),
                                             forwardAttempt := 1)
    requires s'.tasks[id].phase.Compensation? ==>
               && s.compensating && Eligible(s.steps, x) && x in s.outputs && s'.tasks[id].kind.Activity?
               && s'.steps[x] == s.steps[x].(compensationScheduled := true, compensationTaskId := Some(id))
    ensures Inv(def, s')
  {
    hide OrderOk, DependenciesCompleted;
    assert StepOk(def, s, x);
    forall y | y in s'.steps ensures StepOk(def, s', y) { assert StepOk(def, s, y); }
    forall k | k in s'.tasks ensures TaskOk(s', k) { assert k != id ==> TaskOk(s, k); }
  }

  lemma ScheduledKeepsInv(def: Definition, s: Core, e: Event)
    requires Inv(def, s) && e.payload.TaskScheduled? && Legal(s, e)
    ensures ApplyCore(s, e).Ok? && Inv(def, ApplyCore(s, e).value)
  {
    var id, x := e.payload.taskId, e.payload.stepId;
    if e.payload.compensation {
      assert x in s.completedOrder;
    }
    NewTaskKeepsInv(def, s, ApplyCore(s, e).value, id, x) by { hide Inv; }
  }

  // ------------------------------------------------------------------ every legal event

  lemma ForwardEventKeepsInv(def: Definition, s: Core, e: Event)
    requires Inv(def, s) && Legal(s, e)
    requires e.payload.TaskLeased? || e.payload.TaskFailed? || e.payload.TaskRetryScheduled? || e.payload.TaskCancelled?
    requires s.tasks[e.payload.taskId].phase.Forward?
    ensures ApplyCore(s, e).Ok? && Inv(def, ApplyCore(s, e).value)
  {
    var id := e.payload.taskId;
    assert TaskOk(s, id);
    var x := s.tasks[id].stepId;
    assert StepOk(def, s, x);
    var s' := ApplyCore(s, e).value;
    ForwardMoveKeepsInv(def, s, s', id, s'.tasks[id], s'.steps[x]);
  }

  lemma CompensationEventKeepsInv(def: Definition, s: Core, e: Event)
    requires Inv(def, s) && Legal(s, e)
    requires e.payload.TaskLeased? || e.payload.TaskCompleted? || e.payload.TaskFailed? || e.payload.TaskCancelled?
    requires s.tasks[e.payload.taskId].phase.Compensation?
    ensures ApplyCore(s, e).Ok? && Inv(def, ApplyCore(s, e).value)
  {
    var id := e.payload.taskId;
    assert TaskOk(s, id);
    var x := s.tasks[id].stepId;
    assert StepOk(def, s, x);
    var s' := ApplyCore(s, e).value;
    assert s.steps[x := s.steps[x]] == s.steps;
    CompensationMoveKeepsInv(def, s, s', id, s'.tasks[id], s'.steps[x]);
  }

  lemma CompletionKeepsInv(def: Definition, s: Core, e: Event)
    requires Inv(def, s) && Legal(s, e) && (e.payload.TaskCompleted? || e.payload.TimerFired?)
    requires s.tasks[e.payload.taskId].phase.Forward?
    ensures ApplyCore(s, e).Ok? && Inv(def, ApplyCore(s, e).value)
    ensures ApplyCore(s, e).value.completedOrder == s.completedOrder + [e.payload.stepId]
  {
    var id := e.payload.taskId;
    assert TaskOk(s, id);
    var x := s.tasks[id].stepId;
    assert StepOk(def, s, x);
    var s' := ApplyCore(s, e).value;
    ForwardDoneKeepsInv(def, s, s', id, s'.tasks[id], s'.steps[x], s'.outputs[x]);
  }

  lemma HeartbeatKeepsInv(def: Definition, s: Core, e: Event)
    requires Inv(def, s) && Legal(s, e) && e.payload.TaskHeartbeat?
    ensures ApplyCore(s, e).Ok? && Inv(def, ApplyCore(s, e).value)
  {
    var id := e.payload.taskId;
    var s' := ApplyCore(s, e).value;
    RenewalKeepsInv(def, s, s', id, s'.tasks[id]) by { hide Inv; }
  }

  lemma RunEventKeepsInv(def: Definition, s: Core, e: Event)
    requires Inv(def, s)
    requires match e.payload
             case WorkflowStarted(_, _) => true
             case RunCancelRequested(_) => true
             case RunCompensating(_) => true
             case RunCompleted(_) => true
             case RunFailed(_) => true
             case RunCancelled(_) => true
             case _ => false
    ensures ApplyCore(s, e).Ok? && Inv(def, ApplyCore(s, e).value)
  {
    FlagsKeepInv(def, s, ApplyCore(s, e).value) by { hide Inv; }
  }

  lemma TimerIsForward(def: Definition, s: Core, id: TaskId)
    requires Inv(def, s) && id in s.tasks && s.tasks[id].kind.Timer?
    ensures s.tasks[id].phase.Forward?
  {
    assert TaskOk(s, id);
  }

  /** Replay never fails on a legal event, and the invariant survives it. */
  lemma LegalKeepsInv(def: Definition, s: Core, e: Event)
    requires Inv(def, s) && Legal(s, e)
    ensures ApplyCore(s, e).Ok? && Inv(def, ApplyCore(s, e).value)
  {
    hide Inv, ApplyCore, NextCompensation, AllCompleted, SchedulesForward;
    match e.payload
    case TaskScheduled(_, _, _, _, _, _, _, _, _, _) => ScheduledKeepsInv(def, s, e);
    case TaskHeartbeat(_, _, _) => HeartbeatKeepsInv(def, s, e);
    case TimerFired(id, _) =>
      TimerIsForward(def, s, id);
      CompletionKeepsInv(def, s, e);
    case TaskCompleted(id, _, _, _, _) =>
      if s.tasks[id].phase.Forward? { CompletionKeepsInv(def, s, e); } else { CompensationEventKeepsInv(def, s, e); }
    case TaskRetryScheduled(_, _, _, _, _) => ForwardEventKeepsInv(def, s, e);
    case TaskLeased(id, _, _, _, _) =>
      if s.tasks[id].phase.Forward? { ForwardEventKeepsInv(def, s, e); } else { CompensationEventKeepsInv(def, s, e); }
    case TaskFailed(id, _, _, _, _) =>
      if s.tasks[id].phase.Forward? { ForwardEventKeepsInv(def, s, e); } else { CompensationEventKeepsInv(def, s, e); }
    case TaskCancelled(id, _, _, _) =>
      if s.tasks[id].phase.Forward? { ForwardEventKeepsInv(def, s, e); } else { CompensationEventKeepsInv(def, s, e); }
    case TaskLeaseExpired(_, _, _) =>
    case _ => RunEventKeepsInv(def, s, e);
  }
}
