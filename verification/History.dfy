/** The events of a run's history and their payloads (internal/history/events.go). */
module History {
  import opened Prelude
  import opened Workflow

  type Time = int
  /** UUIDs, taken as the numbers they are. */
  type TaskId = nat
  type RunId = nat

  /** Outputs and inputs; encoding is not modelled, an absent value is `Raw("")`. */
  datatype Json = Null | Raw(text: string) | Object(fields: map<StepId, Json>)

  datatype Payload =
    | WorkflowStarted(workflow: string, input: Json)
    | TaskScheduled(taskId: TaskId, stepId: StepId, kind: StepKind, queue: string, activity: string,
                    attempt: int, maxAttempts: int, availableAt: Time,
                    dependencies: map<StepId, Json>, compensation: bool)
    | TaskLeased(taskId: TaskId, stepId: StepId, workerId: string, attempt: int, leaseExpiresAt: Time)
    | TaskHeartbeat(taskId: TaskId, workerId: string, leaseExpiresAt: Time)
    | TaskCompleted(taskId: TaskId, stepId: StepId, workerId: string, output: Json, compensation: bool)
    | TaskFailed(taskId: TaskId, stepId: StepId, workerId: string, error: string, compensation: bool)
    | TaskRetryScheduled(taskId: TaskId, stepId: StepId, attempt: int, availableAt: Time, error: string)
    | TaskLeaseExpired(taskId: TaskId, stepId: StepId, error: string)
    | TaskCancelled(taskId: TaskId, stepId: StepId, reason: string, compensation: bool)
    | TimerFired(taskId: TaskId, stepId: StepId)
    | RunCancelRequested(reason: string)
    | RunCompensating(reason: string)
    | RunCompleted(output: Json)
    | RunFailed(error: string)
    | RunCancelled(reason: string)

  datatype Event = Event(
    runId: RunId,
    sequence: nat,
    stepId: StepId,
    taskId: Option<TaskId>,
    payload: Payload,
    createdAt: Time)

  /** Sequence numbers are exactly 1, 2, ..., n. */
  predicate Numbered(events: seq<Event>) {
    forall i :: 0 <= i < |events| ==> events[i].sequence == i + 1
  }
}
