# Orchid in Dafny

Orchid is a workflow engine that keeps every run as a history of events. Commands replay the
history, append events, and write the run row and the task rows as caches of what replay computes.
Workers lease tasks, send heartbeats, and complete or fail them; a run that fails or is cancelled is
unwound by compensations. This project models the engine, its reducer, its store and the validation
of workflow graphs, and proves what a run can and cannot do under any sequence of calls by any number
of callers.

## How the project is built

- `Workflow` holds definitions, the builder with its depth-first cycle search, and the registry.
- `History` and `Engine` hold events and records. `Reducer` is replay as a function; `RunMachine` is
  replay as the source runs it, in place, and is proved against it. `Backoff` is the retry delay.
- `Invariant` says under which guard each event is appended (`Legal`) and what every state reached by
  such events satisfies. `Chronicle` lifts both to histories.
- `Commands` gives each engine command as a function of what it loaded; `Session` runs the same
  commands in place, with the loops of the source, and is proved against those functions.
- `Tracking`, `Settled`, `CommandProofs` and `CancelProofs` show that every command, run on a committed
  state, succeeds, appends legal events, keeps the task rows equal to replay, and commits a state of the
  same kind. `Settled.Committed` is the invariant of committed states.
- `Tables` gives the transactions on the three tables as functions; `Store` runs them row by row and is
  proved against them. `Runs`, `System` and `Operations` carry the invariant to whole stores with many
  runs. `Operations.Exec` is the store after any sequence of operations, and the theorems about runs
  (`Guarantees`, `Outcomes`, `Rest`, `Termination`, `FailureText`) are about every such store.
- `Histories` and `Lifecycle` read properties off the history itself. `Guarantees.ReachableHistory` says
  that every history in a reachable store is one of those.
- `Serial` takes the three reads of a command as separate steps between which anything may be committed.
- `Timestamps` is the comparison of times as text in the SQLite store, `TimeParsing` their way back.
- `Summaries` says what each command writes into the texts of a run row.
- `Effects` says what each accepted request does, by what was handed in and by row, history and definition
  as they were. `TaskRows`, `RunRows` and `StepStates` read the rows and the replayed state off the history,
  `EventColumns` says what the columns of an event name, and `ForwardOrder` in which order a run goes on.
- `Footprint` says which events and rows a command can write at all. `Steps` describes what one operation
  means for one run, and gives an induction over everything a run can go through.
- `Overlap`, `Failed`, `FailureText`, `Leases`, `Recovery` and `Rest` settle claims that do not hold in
  general: each gives the exact condition, over every reachable store, and `Witnesses` gives reachable runs
  in which they fail.

## What is taken as given

- Identifiers drawn by a command are distinct and belong to no task yet; run ids and task ids are numbers.
- The clock is arbitrary: any operation may see any time, also earlier than the one before.
- The rows selected for leasing, the order in which task rows are listed, and the interleaving of all
  steps are arbitrary. A selection may be off by less than a second, as `Timestamps` shows it can be.
- Workers call Complete and Fail for activities only: the lease check is made for activities only.
- Every body of a store transaction is one atomic step, and (run, sequence) is a unique key.
- Definitions are registered as they were built and do not change afterwards.

## Where code and documentation differ

`docs/architecture.md:110` says that the engine schedules one compensation task at a time. The code
does not check for an open compensation when a task fails for good
(`internal/engine/service.go:575-602`). The model follows the code: `Overlap.OverlapsExactly` says when
two compensations are open, `Witnesses.CompensationsOverlap` gives such a run, and
`Guarantees.AfterCancel` shows that the statement does hold after a cancel request.

A heartbeat is answered with a flag that tells the worker to stop because its run is being cancelled
(`internal/store/sqlite/store.go:318-325`, `internal/worker/worker.go:125`). `Rest.HeartbeatNeverSignals`
shows that the flag is never set: a cancel request revokes every forward task in its own transaction, so the
heartbeat is refused instead.

## Model

| member | source | states |
|---|---|---|
| Workflow.NormalizeKeeps | pkg/workflow/workflow.go:25-36 | Normalizing keeps every policy that is usable as declared. Each field is kept when it is usable and otherwise is 1 attempt, 250 ms or 5 s; the maximum is replaced exactly when it is not positive or below the normalized initial delay. |
| Invariant.AttemptsDeclared | pkg/workflow/workflow.go:26-28 | So a step is given the attempts it declares, and one if it declares none. |
| Workflow.CheckStep | pkg/workflow/workflow.go:235-259 | Finds nothing exactly when the step is sound: it has an id and a kind that is supported, an activity is named, a timer has a positive delay, and every dependency is another step of the workflow. What it reports is the first thing the step lacks. |
| Workflow.CycleSearch.Visit | pkg/workflow/workflow.go:261-278 | Visiting a step terminates on every graph; it either finishes the step with all it depends on, leaving the path as it was, or names a step that lies on a real dependency cycle. |
| Workflow.CycleSearch.VisitDependencies | pkg/workflow/workflow.go:270-274 | After the loop every dependency of the step is finished, or a real cycle has been found. |
| Workflow.RankedIsAcyclic | pkg/workflow/workflow.go:261-283 | A graph in which some order lists every step after its dependencies has no dependency cycle. |
| Workflow.ValidateSteps | pkg/workflow/workflow.go:234-285 | Accepts exactly the graphs whose steps are all sound and that have no dependency cycle. It reports what the first step in order that is not sound lacks, otherwise a step on a cycle, and on success yields a rank that every dependency lowers. |
| Workflow.Builder.Put | pkg/workflow/workflow.go:164-173 | A step is added at the end or replaces the step of its id in its old place, with the default queue for activities and its retry policy normalized; no other step changes. |
| Workflow.Builder.Build | pkg/workflow/workflow.go:175-190 | Succeeds if and only if the name is not empty, there is a step, every step is sound and there is no dependency cycle; each error says which of these fails first and names a step that has that fault. |
| Workflow.Registry.Register | pkg/workflow/workflow.go:299-305 | Files a built definition under its name unless the name is taken; filed definitions never change. |
| RunMachine.Machine.constructor | internal/engine/reducer.go:15-37 | Before the first event the machine holds the initial state: every step untouched, no task, no flag set. |
| RunMachine.Machine.AddSteps | internal/engine/reducer.go:23-31 | The loop over the declared steps enters each of them, untouched. |
| RunMachine.Machine.ApplyEvent | internal/engine/reducer.go:49-305 | Applying an event in place leaves exactly the state of the reduction function, for every event type, or reports its error. |
| RunMachine.Machine.ApplyTaskScheduled | internal/engine/reducer.go:64-94 | A scheduled task appears as available and its step points at it, going forward or in compensation. |
| RunMachine.Machine.ApplyTaskLeased | internal/engine/reducer.go:95-111 | A leased task gets owner and expiry; only forward tasks show in the step. |
| RunMachine.Machine.ApplyTaskHeartbeat | internal/engine/reducer.go:112-125 | A heartbeat renews owner and expiry and sets the heartbeat time. |
| RunMachine.Machine.ApplyTaskCompleted | internal/engine/reducer.go:126-153 | A completion closes the task; forward it records output and order once, in compensation it marks the compensation. |
| RunMachine.Machine.FinishStep | internal/engine/reducer.go:146-153 | A finished step records its output and enters the completed order only if it is not there yet. |
| RunMachine.Machine.ApplyTaskFailed | internal/engine/reducer.go:154-177 | A failure closes the task and marks its step or its compensation. |
| RunMachine.Machine.ApplyTaskRetry | internal/engine/reducer.go:178-198 | A retry makes the task available again with the new attempt and time. |
| RunMachine.Machine.ApplyTaskLeaseExpired | internal/engine/reducer.go:199-211 | An expired lease fails the task and leaves its step alone. |
| RunMachine.Machine.ApplyTaskCancelled | internal/engine/reducer.go:212-229 | A revoked task is cancelled; a revoked forward task marks its step. |
| RunMachine.Machine.ApplyTimer | internal/engine/reducer.go:230-250 | A fired timer completes its step with the null output. |
| RunMachine.ReplayHistory | internal/engine/reducer.go:38-46 | The replay loop ends in the state that folding the events gives, or with the first error met. |
| StepStates.ReplayShows | internal/engine/reducer.go:126-229 | Output and error of every replayed step and of its compensation, and the output of every task, are those of the last event that sets them, found by reading the history alone. |
| Reducer.FoldIsCoreFold | internal/engine/reducer.go:15-47 | Steps, tasks, outputs, order and flags are functions of the events alone; the stored run record plays no part in them. |
| Invariant.LegalKeepsInv | internal/engine/reducer.go:49-305 | On an event that the engine or the store may append in a state, reduction never fails and keeps the invariant that ties steps, tasks, outputs and order together. |
| Chronicle.LegalFromKeepsInv | internal/engine/reducer.go:15-47 | So replay never fails on a history of such events. |
| Backoff.ComputeBackoff | internal/engine/reducer.go:337-347 | The doubling loop on 64-bit durations computes the delay function. |
| Backoff.DoublesExactly | internal/engine/reducer.go:337-347 | For every attempt the delay is min(maximum, initial times 2 to the attempt less one), if and only if no delay below the maximum, and not the initial one, reaches half the 64-bit range. |
| Backoff.OverflowingAttempt | internal/engine/reducer.go:340-345 | Otherwise some attempt gets a negative delay. |
| Backoff.SmallMaximumFits | internal/engine/reducer.go:337-347 | Any maximum below 2^62 ns meets that condition. |
| Backoff.BackoffIsMonotone | internal/engine/reducer.go:337-347 | Under it the delays are positive, never fall with the attempt and never exceed the maximum. |
| Backoff.NormalizedOrder | pkg/workflow/workflow.go:25-36 | Normalizing leaves the initial delay above the maximum exactly when it is longer than 5 s and the given maximum is smaller; normalizing twice changes nothing more. |
| Backoff.LongInitialDelay | internal/engine/reducer.go:337-347 | In that case the first retry waits longer than the maximum, and all later ones wait 5 s if and only if the initial delay is below 2^62 ns; otherwise the second delay is already negative. |
| Session.DependenciesAreCompleted | internal/engine/reducer.go:307-314 | The scan answers whether every dependency has an output. |
| Session.HasOpenTasks | internal/engine/service.go:767-789 | The scan over the tasks answers whether one of the phase is available or leased. |
| Session.NextCompensationStep | internal/engine/service.go:791-804 | The scan from the end finds the latest completed step whose compensation is still to be scheduled. |
| Invariant.LatestEligible | internal/engine/service.go:791-804 | The step found is eligible and no later completed step is; none found means none is eligible. |
| Session.EveryForwardCompleted | internal/engine/service.go:806-814 | The scan answers whether every declared step has completed. |
| Session.CommandSession.constructor | internal/engine/service.go:158-180 | A command starts from the loaded state, numbers from the run version plus one, and has recorded nothing. |
| Session.CommandSession.ForNewRun | internal/engine/service.go:57-87 | A new run starts with its first event recorded and numbers from 2. |
| Session.CommandSession.Record | internal/engine/service.go:706-714 | Recording an event takes the next sequence number and applies the event in place. |
| Session.CommandSession.ScheduleTask | internal/engine/service.go:641-694 | A new task is recorded with its event and its row, or the error is reported. |
| Session.CommandSession.ScheduleReadySteps | internal/engine/service.go:523-545 | The loop over the declared steps schedules exactly the ready ones, in order, each on top of those before. |
| RunRows.ReadyAreScheduled | internal/engine/service.go:523-545 | In every reachable running run a step has been scheduled if and only if all its dependencies have completed. |
| ForwardOrder.RunGoesOn | internal/engine/service.go:523-545 | When a task completes or a timer fires in a run that goes forward, exactly the steps that have become ready are scheduled, in the order in which they were declared. |
| ForwardOrder.StartsWithRoots | internal/engine/service.go:57-104 | A new run schedules the steps without dependencies in that order. |
| Session.CommandSession.ScheduleStep | internal/engine/service.go:526-543 | One turn of that loop: a step that is scheduled or not ready is passed over. |
| Session.CommandSession.FinishRunWithoutCompensation | internal/engine/service.go:624-639 | The run ends as cancelled if that was asked for and as failed otherwise. |
| Session.CommandSession.ScheduleCompensationOf | internal/engine/service.go:696-704 | The compensation of a step is an activity on the compensation queue, if one is named. |
| Session.CommandSession.Advance | internal/engine/service.go:604-622 | Unwinding waits for an open compensation, goes on with the next, or ends the run. |
| Session.CommandSession.BeginUnwinding | internal/engine/service.go:575-602 | Unwinding begins with the next compensation, or the run ends. |
| Session.CommandSession.PostProcessTask | internal/engine/service.go:547-573 | After a completion the run unwinds further, or schedules what is ready and completes when every step has. |
| CommandProofs.UpdateTracks | internal/engine/service.go:744-758 | Bringing the row of one task up to date from its replayed state keeps all rows of the run equal to replay. |
| Session.CommandSession.RecordAndUpdate | internal/engine/service.go:176-197 | A task event is recorded and its row updated from the reduced state. |
| Outcomes.CompletionTime | internal/engine/service.go:200-206 | In every reachable store a terminal run has a completion time, and it is the time of the last event that closed the run. |
| Leases.LeaseIsExclusive | internal/engine/service.go:166-175 | No operation changes a leased task but a heartbeat, completion or failure by the worker that holds the lease, and a cancel request for the run. |
| Session.CommandSession.CompleteTaskOnce | internal/engine/service.go:158-214 | The command as written computes the outcome of the command function; what that is for the row, the history and the outputs is stated next. |
| Effects.CompletionRecords | internal/engine/service.go:158-214 | In every reachable store an accepted completion first records a completion event of that task, by that worker, with exactly the output handed in (null if and only if it is empty). The row is completed with attempt and error as before, and for a forward task the outputs in the history change at its step only, to that output. |
| Footprint.ExecuteWrites | internal/engine/service.go:158-425 | Which events a command can append after its first one, and which rows it can insert or update. |
| Session.CommandSession.RetryTask | internal/engine/service.go:261-292 | A retry records attempt and due time in event and row alike. |
| Session.CommandSession.FailForGood | internal/engine/service.go:294-303 | A final failure notes the failure text and begins to unwind the run. |
| Commands.RetriesUnlessForGood | internal/engine/service.go:261-264 | A failure is retried unless it is for good: in compensation, not retryable, in a run being cancelled, or with no attempt left. |
| Session.CommandSession.FailTaskOnce | internal/engine/service.go:222-317 | The command as written computes the outcome of the command function, retry or final failure; which of the two, and with what effect, is stated next. |
| Effects.FailureDecides | internal/engine/service.go:222-317 | In every reachable store an accepted failure makes the task available again, one attempt further and due after the backoff, if and only if it goes forward, is retryable, the history holds no cancel request and its attempt is below the maximum its step declares. Otherwise the task has failed. Event and row carry the error handed in. |
| Session.CommandSession.RevokeTasks | internal/engine/service.go:343-367 | The loop revokes exactly the listed tasks that are still open. |
| Session.CommandSession.RevokeTask | internal/engine/service.go:344-367 | One turn of that loop. |
| Session.CommandSession.CancelRunOnce | internal/engine/service.go:325-379 | The command as written computes the outcome of the command function; a terminal run is left alone. |
| Effects.CancellationRevokes | internal/engine/service.go:325-379 | In every reachable store an accepted cancel request leaves a terminal run alone; otherwise it is recorded with its reason, exactly the open tasks of the run are cancelled, for that reason, and the run is compensating or cancelled. |
| Session.CommandSession.FireTimerOnce | internal/engine/service.go:387-425 | The command as written computes the outcome of the command function; a timer that is not due is left alone. |
| Effects.TimerFires | internal/engine/service.go:387-425 | In every reachable store firing completes a timer that is available and due, and gives its step the null output; any other task and its run are left as they are. |
| Session.StartRunOnce | internal/engine/service.go:57-104 | The command as written computes the run row, history and task rows of a new run. |
| RunRows.StartBegins | internal/engine/service.go:57-104 | In every reachable store a start is accepted exactly for a registered workflow under a new id. The run is then running with the input handed in (null if it is empty), its history begins with that input, and exactly the steps without dependencies have been scheduled. |
| CommandProofs.CompleteWorkFinal | internal/engine/service.go:158-214 | On a committed state with the lease held, completing a task cannot fail: it appends legal events, keeps the rows equal to replay and leaves a committed state. |
| CommandProofs.RetryFinal | internal/engine/service.go:261-292 | The same for a failure that is retried. |
| CommandProofs.FinalFailureFinal | internal/engine/service.go:294-309 | The same for a failure that is final. |
| CommandProofs.FireWorkFinal | internal/engine/service.go:387-425 | The same for a due timer. |
| CancelProofs.CancelWorkFinal | internal/engine/service.go:325-379 | The same for cancelling a run that is not terminal, however many tasks are revoked. |
| CancelProofs.StartWorkFinal | internal/engine/service.go:57-104 | The same for starting a run, which is committed as running. |
| Settled.NoDeadlock | internal/engine/service.go:523-602 | In a committed state that is not terminal some task is open; this uses the rank that validation established. |
| System.ExecuteCommits | internal/engine/service.go:152-425 | Whatever any request appends is such a legal continuation and contains a piece of work on a task. |
| Store.InsertKeepsAscending | internal/store/sqlite/store.go:473-479 | Inserting an event keeps the key order, adds the event and loses none. |
| Store.Transaction.AddEvent | internal/store/sqlite/store.go:473-479 | A second row under the same run and sequence number is refused. |
| Store.Transaction.AddEvents | internal/store/sqlite/store.go:241-245 | Events are inserted one by one, up to the first refusal. |
| Store.Transaction.Mutate | internal/store/sqlite/store.go:246-259 | Task rows are inserted or updated one by one; an update touches its columns only. |
| TaskRows.RowAsScheduled | internal/store/sqlite/store.go:481-500 | In every reachable store, at every point of its life, a task row has the step, kind, phase, queue, activity, attempts allowed, dependency outputs and creation time of the event that scheduled it. |
| TaskRows.RowErrorIsLast | internal/engine/service.go:744-758 | The error in a task row is that of the last event of its history that gave it one. |
| Store.Transaction.NextSequenceOf | internal/store/sqlite/store.go:568-574 | The greatest sequence number plus one, or 1. |
| Store.Transaction.Append | internal/store/sqlite/store.go:386-396 | An event of the store itself takes the next number and makes it the version of the run. |
| Store.Database.Commit | internal/store/sqlite/store.go:447-462 | A transaction replaces the tables in one step. |
| Store.Database.InsertRun | internal/store/postgres/store.go:63-80 | A run is created with its events and tasks, or nothing is changed. |
| Store.Database.AppendChanges | internal/store/sqlite/store.go:223-262 | The changes are written, all or nothing, only if the version is still the expected one. |
| Store.Database.LeaseSelected | internal/store/sqlite/store.go:338-407 | The loop leases exactly those selected rows that are still available, each with its event. |
| Leases.LeaseGrantsExactly | internal/store/sqlite/store.go:338-407 | In every reachable store a lease operation grants each selected row, which is an available activity of the queue that was asked for, to the worker for the time it asked for, and changes no other row. |
| Store.Database.LeaseRow | internal/store/sqlite/store.go:353-402 | One turn of that loop touches one row. |
| Store.Database.Heartbeat | internal/store/sqlite/store.go:271-328 | A lease is renewed for its holder only, with an event, or the call is refused and nothing changes. |
| Leases.HeartbeatRenewsExactly | internal/store/sqlite/store.go:271-328 | In every reachable store a heartbeat is accepted exactly from the holder of a lease; it moves expiry, heartbeat and modification time of that one row, and when refused nothing changes. |
| Rest.HeartbeatNeverSignals | internal/store/sqlite/store.go:318-325 | In no reachable store does a heartbeat reply that the run is being cancelled. |
| Rest.CancelTakesTheLease | internal/worker/worker.go:115-129 | After a cancel request every heartbeat of a forward task is refused, so its worker learns of it by losing the lease. |
| Runs.CommitKeepsView | internal/engine/service.go:198-211 | Committing a command keeps run row, history and task rows in agreement with replay. |
| Runs.LeaseKeepsView | internal/store/sqlite/store.go:338-407 | Leasing a task, outside the engine, keeps them in agreement as well. |
| Runs.HeartbeatKeepsView | internal/store/sqlite/store.go:271-328 | So does a heartbeat. |
| Operations.LaunchAdds | internal/engine/service.go:57-104 | Starting a run always works under a new id, adds that run with rows that agree with replay, and changes no other. |
| Operations.CommandCommits | internal/engine/service.go:471-505 | A command on any run of a store in order loads a committed state, and what it appends is accepted by the version compare and moves that run alone. |
| Operations.LeaseTasksEvolves | internal/store/sqlite/store.go:338-407 | A batch of leases, over any number of runs, always succeeds, loses nothing and raises the version of every run it changes. |
| Operations.NextKeeps | internal/store/sqlite/store.go:223-407 | Every operation keeps all runs of the store in order, and changes a run only by adding work, or a heartbeat, to its history. |
| Operations.ReachableOk | internal/engine/service.go:57-425 | Hence every store that any sequence of operations by any callers reaches is in order. |
| Serial.ReadsAreLoad | internal/engine/service.go:471-521 | If the run still has the version that was read first, the separate reads of run row, history and task rows equal one atomic load now. |
| Serial.CommitIsAtomic | internal/engine/service.go:471-521 | A command whose reads were interleaved with other writers and that writes does exactly what it would do atomically at commit time. |
| Serial.Serialisable | internal/store/sqlite/store.go:223-262 | Any interleaving of the reads and commits of any number of commands with leases, heartbeats and starts equals its commits done one by one in their order. |
| Termination.EventLowers | internal/engine/service.go:158-425 | Every legal event leaves the measure of the run or lowers it, and work on a task lowers it strictly. |
| Termination.WorkIsBounded | internal/engine/service.go:158-425 | Work done plus measure left never exceeds the budget: twice the attempts of every step plus two for every compensation. |
| Termination.WorkLowersMeasure | internal/engine/service.go:158-425 | From any point of a legal history to its end, the work done in between is paid for in full by the fall of the measure, which never rises. |
| Termination.CommitsLowerMeasure | internal/engine/service.go:158-425 | For a run in the store, no operation raises the measure of what is left to do, and every operation but a heartbeat that changes the run strictly lowers it; it never goes below zero. |
| Termination.CommitsAreBounded | internal/engine/service.go:158-425 | Apart from heartbeats, no sequence of operations changes a run more often than its budget after it has been started. |
| Summaries.SummaryTexts | internal/engine/service.go:294-302 | A cancel request sets the cancel reason, a final failure the failure text, and no command changes either otherwise. |
| Guarantees.ReachableHistory | internal/engine/service.go:57-425 | Every history in a reachable store consists of legal events of a built definition, so the results about histories apply to it. |
| Guarantees.ReplayIsFixedPoint | internal/engine/service.go:126-142 | In every reachable store the sequence numbers are 1..n, the version is n, and replay succeeds and gives back status, output and cancel reason of the run row. |
| RunRows.RunRowIsTold | internal/engine/reducer.go:251-300 | In every reachable store the row of a run can be read off its history without replay: workflow, input and creation time from the first event, modification time from the last, status and cancel reason from the last event that sets them. |
| EventColumns.EventsNameTheirTask | internal/engine/service.go:706-714 | In every reachable store the columns of every event name its run, its place, and exactly the step and task that its payload is about; a heartbeat, whose payload names no step, has the step of its task. |
| Guarantees.RowsAreReplay | internal/engine/service.go:744-758 | The task table holds exactly the replayed tasks, with their status, attempt, due time, error and, while leased, owner and expiry. |
| Guarantees.StepsMirrorTasks | internal/engine/reducer.go:64-94 | Every scheduled step has exactly one forward task and shows its status, id and attempt. |
| Guarantees.NeverStuck | internal/engine/service.go:523-602 | A reachable run that is not terminal has an available or leased task. |
| Guarantees.CompletedExactly | internal/engine/service.go:556-571 | A reachable run is completed if and only if every step has a completion event, and then no compensation was ever scheduled. |
| Guarantees.CompensationCoverage | internal/engine/service.go:604-622 | Once a run is compensating, a completed step that still waits for its compensation has an open compensation ahead of it. |
| Guarantees.AfterCancel | internal/engine/service.go:325-379 | After a cancel request no forward task is open, at most one compensation is, and the run is cancelled exactly when none is and compensating otherwise. |
| Guarantees.CommandSucceedsExactly | internal/engine/service.go:158-425 | A command on a reachable store succeeds if and only if its run or task exists and, for a worker, its lease is held; no other error can occur. |
| Outcomes.CompletedOutput | internal/engine/service.go:760-765 | The output of a completed run maps every step, and nothing else, to what its completion event carried. |
| Rest.RestIsFinal | internal/engine/service.go:158-425 | No operation changes a run that has no open task. |
| Rest.OpenTaskMoves | internal/engine/service.go:158-317 | An open task is moved on by the operation it waits for, also in a failed run. |
| Rest.FinalExactly | internal/engine/service.go:158-425 | No operation whatever can change a run if and only if it has no open task, whatever its status says. |
| Rest.Absorbing | internal/engine/types.go:24-31 | Completed and cancelled runs keep their rows, history and version for ever. |
| Histories.CompletionOrder | internal/engine/reducer.go:126-153 | Steps complete at most once, every step after all its dependencies, and they are the steps that have outputs. |
| Histories.ReplayCompletes | internal/engine/reducer.go:126-153 | The replayed order and outputs are those of the completion events in the history. |
| Histories.ForwardScheduling | internal/engine/service.go:523-545 | In every history a forward task is scheduled once per step, after the completion or timer event of each dependency, and never after a cancel request. |
| Histories.ForwardInput | internal/engine/service.go:716-742 | It is handed what the completion events of its dependencies carried, and nothing else. |
| Histories.CompensationInput | internal/engine/service.go:724-728 | A compensation is handed what its own step completed with. |
| Histories.ScheduledAsDefined | internal/engine/service.go:641-704 | Kind, queue, activity, attempts and due time of a scheduled task are those its step names, going forward or for its compensation. |
| Histories.ScheduledOnce | internal/engine/service.go:791-804 | No step has two forward tasks or two compensation tasks. |
| Histories.CompensationScheduling | internal/engine/service.go:791-804 | A compensation is scheduled once, for a completed step that has one, when every compensable step that completed later has had its own scheduled. |
| Histories.CompensationsDescend | internal/engine/service.go:575-622 | Of two compensations the later one is for a step that completed earlier, unless it completed in between. |
| Histories.CancelStopsForward | internal/engine/service.go:325-379 | After a cancel request no forward task is scheduled, leased, renewed, completed, failed or retried. |
| Histories.CancelFreezesCompletions | internal/engine/service.go:325-379 | So the completed order is frozen from then on. |
| Histories.CancelledCompensationsDescend | internal/engine/service.go:325-379 | Compensations scheduled after a cancel request have strictly falling positions in that order. |
| Lifecycle.HistoryTells | internal/engine/service.go:222-317 | The events of a task alone, read as a word, give the status and attempt of the replayed task. |
| Lifecycle.TaskLanguage | internal/engine/service.go:261-292 | The events of every task form a prefix of Scheduled (Leased Heartbeat* Failed Retry)^k and an end, with k below the attempts allowed and 0 for compensations, so leases never exceed the attempts. |
| Lifecycle.LeaseNotEarly | internal/store/sqlite/store.go:338-348 | A task is leased less than a second before it is due: at once after scheduling, or after the backoff of its attempt. |
| Lifecycle.TimerNotEarly | internal/engine/service.go:393-399 | A timer never fires before its delay has passed since it was scheduled. |
| Overlap.OverlapsExactly | internal/engine/service.go:575-602 | A command leads from at most one open compensation to two if and only if a forward task fails for good while a compensation is open and a completed step is left to compensate. |
| Overlap.SecondFailureExactly | internal/engine/service.go:575-602 | In a reachable run with at most one open compensation, an operation of any kind opens a second one exactly if it is such a failure. |
| Overlap.OneAtATime | internal/engine/service.go:604-622 | As long as there has been no such failure, at most one compensation of a reachable run is open. |
| Witnesses.CompensationsOverlap | internal/engine/service.go:575-602 | A reachable run of four steps with two open compensations. |
| Failed.LeavesFailedExactly | internal/engine/service.go:226-239 | A reachable failed run stays failed whatever is done, except that a further failure for good turns it to compensating if and only if a completed step is left to compensate. |
| Witnesses.FailedIsNotAbsorbing | internal/engine/service.go:162-175 | A reachable run that is failed and later compensating. |
| FailureText.FailureExactly | internal/engine/service.go:294-302 | After a command, replay gives back the failure text of the run row unless, and only unless, a compensation has just failed in a run being cancelled with a different failure on record. |
| FailureText.FailureReplaysExactly | internal/engine/service.go:126-142 | In every reachable run replay gives back the failure text of the row, unless and only unless the last command reported a failing compensation after a cancel request, with a different failure on record. |
| FailureText.FailureIsFixedPoint | internal/engine/service.go:126-142 | So it does in every reachable run in which no compensation has failed after a cancel request. |
| Witnesses.FailureIsLost | internal/engine/service.go:294-302 | A reachable run whose failure text replay does not give back. |
| Leases.LeaseHidesHeartbeat | internal/store/sqlite/store.go:360-365 | After a lease the heartbeat column agrees with replay exactly if replay already had a heartbeat at that very time. |
| Leases.HeartbeatRestores | internal/engine/reducer.go:112-125 | After a heartbeat it agrees. |
| Leases.LeaseIsLastGrant | internal/store/sqlite/store.go:338-407 | Owner, expiry and heartbeat time of a leased task are those of the last lease or heartbeat in its history. |
| Leases.HeartbeatAgreesExactly | internal/engine/reducer.go:104-125 | In every reachable store the heartbeat column agrees with replay if and only if the task is not leased, or has had a heartbeat since it was leased (or at that very time). |
| Witnesses.HeartbeatColumnDiffers | internal/store/sqlite/store.go:360-365 | A reachable store in which it does not. |
| Recovery.FailureEndsExactly | internal/engine/service.go:436 | On a reachable store the failure that recovery reports ends the lease exactly if the worker it names holds it at that time, whatever its expiry. |
| Recovery.RecoveryExactly | internal/engine/service.go:427-437 | A recovery that found the lease expired, with any operations before its second load, fails a lease that has not expired if and only if the same worker still holds the task and has renewed or taken it since, until after the commit. |
| Recovery.RenewedLeaseIsFailed | internal/engine/service.go:427-437 | That can happen to every leased activity of every reachable store. |
| Witnesses.LiveLeaseIsFailed | internal/engine/service.go:427-437 | A reachable run in which a lease is found expired, renewed, and failed all the same. |
| Timestamps.CivilOrder | internal/store/sqlite/store.go:481-488 | The text of whole seconds is in the order of the seconds, for every date of the years 0 to 9999. |
| TimeParsing.CalendarIsGregorian | internal/store/sqlite/store.go:612-617 | The civil date of a second is the Gregorian one: the closed day count of its year, month and day, with the leap year rule, gives the second back. |
| TimeParsing.TextRoundTrip | internal/store/sqlite/store.go:619-625 | Reading the text of a time gives the time back to the nanosecond, with a trimmed fraction or none, for every date of the years 0 to 9999. |
| Timestamps.TextOrderExactly | internal/store/sqlite/store.go:423-429 | Comparing times as text is right if and only if neither time lies in the second of the other with a trimmed fraction that is a proper beginning of the other's. |
| Timestamps.OffByLessThanASecond | internal/store/sqlite/store.go:345-348 | What text comparison selects as due is due within less than a second, and what has been due for a second is selected. |
| Timestamps.WholeSecondsAreLate | internal/store/sqlite/store.go:423-429 | A time on the full second is not selected for the rest of that second. |

## Left out

- HTTP API, command line, client, browser interface, telemetry and wiring: they hold no engine state.
- SQL, drivers and connection handling: a transaction is a function on maps of rows.
- JSON: payloads are a datatype, outputs are opaque values, and an absent value is written as the empty
  text; comparing outputs in the replay report is equality of values.
- Metadata, timeouts, activity input beyond the dependency outputs and the workflow name column of task rows:
  they are stored and passed on but decide nothing.
- Modification times of task rows: a row is written with the time of the command, but no result says so.
- Step options of the builder: `Builder.Put` takes the step as the options have left it.
- `DependenciesSatisfied` of the replay report: it repeats a scan whose result no command uses.
- Optimistic retry: a command that meets a version conflict is a new command; the number of tries and the
  pauses between them are not modelled.
- Worker goroutines, tickers and the sweep: workers and sweepers are arbitrary callers.
- `task.lease_expired`: replay handles it in the model, but no command appends it, so no reachable history
  holds it.
- Changing a builder after it has built a definition: the step map is shared in the source.
- List limits, queries for display and metrics.
- Timestamps.CivilOrder: that the library writes the civil date counted here is not part of this model, nor are
  leap seconds; TimeParsing.CalendarIsGregorian shows that the dates counted are the Gregorian ones.
- Store.Database.LeaseSelected: takes the selected ids as given, because the query, its order and its limit
  are the database's; Tables.Selected says what a selection may contain.
- Operations.NextKeeps: Postgres compares times as times, which is one of the selections allowed here.
- Session.CommandSession.FailTaskOnce: assumes a step's definition is found, as it always is for a registered
  workflow; the zero step that the source would get otherwise allows no retry either.
