/** Run, task and step records (internal/engine/types.go). */
module Engine {
  import opened Prelude
  import opened Workflow
  import opened History

  datatype RunStatus = Running | Compensating | Cancelling | Completed | Failed | Cancelled {
    predicate Terminal() {
      Completed? || Failed? || Cancelled?
    }
  }

  datatype TaskStatus = Available | Leased | Completed | Failed | Cancelled {
    predicate Open() {
      Available? || Leased?
    }
  }

  datatype TaskPhase = Forward | Compensation

  datatype RunRecord = RunRecord(
    id: RunId,
    workflowName: string,
    status: RunStatus,
    input: Json,
    output: Option<Json>,
    failure: string,
    cancelReason: string,
    createdAt: Time,
    updatedAt: Time,
    completedAt: Option<Time>,
    version: nat)

  datatype TaskRecord = TaskRecord(
    id: TaskId,
    runId: RunId,
    stepId: StepId,
    kind: StepKind,
    phase: TaskPhase,
    activity: string,
    queue: string,
    status: TaskStatus,
    attempt: int,
    maxAttempts: int,
    availableAt: Time,
    leaseOwner: string,
    leaseExpiresAt: Option<Time>,
    heartbeatAt: Option<Time>,
    dependencies: map<StepId, Json>,
    lastError: string,
    createdAt: Time,
    updatedAt: Time)

  datatype StepState = StepState(
    definition: Step,
    forwardStatus: Option<TaskStatus>,
    forwardTaskId: Option<TaskId>,
    forwardAttempt: int,
    forwardOutput: Option<Json>,
    forwardError: string,
    compensationScheduled: bool,
    compensationTaskId: Option<TaskId>,
    compensationCompleted: bool,
    compensationFailed: bool,
    compensationOutput: Option<Json>,
    compensationError: string)

  datatype TaskState = TaskState(
    id: TaskId,
    stepId: StepId,
    kind: StepKind,
    phase: TaskPhase,
    status: TaskStatus,
    attempt: int,
    availableAt: Time,
    leaseOwner: string,
    leaseExpiresAt: Option<Time>,
    heartbeatAt: Option<Time>,
    output: Option<Json>,
    error: string)

  /** Everything replay computes apart from the run record. */
  datatype Core = Core(
    steps: map<StepId, StepState>,
    tasks: map<TaskId, TaskState>,
    outputs: map<StepId, Json>,
    completedOrder: seq<StepId>,
    cancelRequested: bool,
    compensating: bool,
    finished: bool)

  datatype RunState = RunState(run: RunRecord, core: Core)

  datatype Error =
    | RunNotFound
    | TaskNotFound
    | WorkflowNotFound
    | TaskLeaseLost
    | VersionConflict
    | DuplicateKey
    | UnknownTask(taskId: TaskId)
    | UnknownStep(stepId: StepId)
    | UnsupportedEvent
}
