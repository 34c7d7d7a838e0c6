/** What replay shows of each step and task beyond their status: outputs and errors, read off the history. */
module StepStates {
  import opened Prelude
  import opened Workflow
  import opened History
  import opened Engine
  import opened Reducer
  import opened Invariant
  import opened Chronicle
  import opened Histories

  /** The output with which the compensation of step `x` completed. */
  function UnwindOutput(events: seq<Event>, x: StepId): Option<Json> {
    if |events| == 0 then None
    else
      match events[|events| - 1].payload
      case TaskCompleted(_, y, _, output, true) => if y == x then Some(output)
          else UnwindOutput(events[..|events| - 1], x)
      case _ => UnwindOutput(events[..|events| - 1], x)
  }

  /** The error with which the compensation of step `x` failed. */
  function UnwindError(events: seq<Event>, x: StepId): Option<string> {
    if |events| == 0 then None
    else
      match events[|events| - 1].payload
      case TaskFailed(_, y, _, error, true) => if y == x then Some(error) else UnwindError(events[..|events| - 1], x)
      case _ => UnwindError(events[..|events| - 1], x)
  }

  /** What last went wrong with step `x` going forward. */
  function ForwardError(events: seq<Event>, x: StepId): string {
    if |events| == 0 then ""
    else
      match events[|events| - 1].payload
      case TaskFailed(_, y, _, error, false) => if y == x then error else ForwardError(events[..|events| - 1], x)
      case TaskRetryScheduled(_, y, _, _, error) => if y == x then error else ForwardError(events[..|events| - 1], x)
      case TaskCancelled(_, y, reason, false) => if y == x then reason else ForwardError(events[..|events| - 1], x)
      case _ => ForwardError(events[..|events| - 1], x)
  }

  /** The output with which task `id` completed. */
  function TaskOutput(events: seq<Event>, id: TaskId): Option<Json> {
    if |events| == 0 then None
    else
      match events[|events| - 1].payload
      case TaskCompleted(k, _, _, output, _) => if k == id then Some(output) else TaskOutput(events[..|events| - 1], id)
      case TimerFired(k, _) => if k == id then Some(Null) else TaskOutput(events[..|events| - 1], id)
      case _ => TaskOutput(events[..|events| - 1], id)
  }

  /** Replay shows what the history says of step `x`. */
  predicate StepShown(s: Core, events: seq<Event>, x: StepId) {
    x in s.steps ==>
      var step := s.steps[x];
      && step.forwardOutput == (if x in CompletedOutputs(events) then Some(CompletedOutputs(events)[x]) else None)
      && step.forwardError == ForwardError(events, x)
      && step.compensationOutput == UnwindOutput(events, x)
      && (step.compensationCompleted <==> UnwindOutput(events, x).Some?)
      && step.compensationError == UnwindError(events, x).GetOr("")
      && (step.compensationFailed <==> UnwindError(events, x).Some?)
  }

  predicate TaskShown(s: Core, events: seq<Event>, id: TaskId) {
    if id in s.tasks then s.tasks[id].output == TaskOutput(events, id) else TaskOutput(events, id).None?
  }

  // ------------------------------------------------------------------ one event

  lemma CompletedShows(s: Core, events: seq<Event>, x: StepId)
    requires events != [] && (events[|events| - 1].payload.TaskCompleted? || events[|events| - 1].payload.TimerFired?)
    requires ApplyCore(s, events[|events| - 1]).Ok? && StepShown(s, events[..|events| - 1], x)
    ensures StepShown(ApplyCore(s, events[|events| - 1]).value, events, x)
  {
  }

  lemma FailedShows(s: Core, events: seq<Event>, x: StepId)
    requires events != [] && events[|events| - 1].payload.TaskFailed?
    requires ApplyCore(s, events[|events| - 1]).Ok? && StepShown(s, events[..|events| - 1], x)
    ensures StepShown(ApplyCore(s, events[|events| - 1]).value, events, x)
  {
  }

  lemma RetryShows(s: Core, events: seq<Event>, x: StepId)
    requires events != [] && (events[|events| - 1].payload.TaskRetryScheduled?
             || events[|events| - 1].payload.TaskCancelled?)
    requires ApplyCore(s, events[|events| - 1]).Ok? && StepShown(s, events[..|events| - 1], x)
    requires Legal(s, events[|events| - 1])
    requires events[|events| - 1].payload.stepId in s.steps
    ensures StepShown(ApplyCore(s, events[|events| - 1]).value, events, x)
  {
    hide LatestEligible, DependenciesCompleted, FitsStep, BackoffForAttempt;
  }

  lemma ScheduledShows(s: Core, events: seq<Event>, x: StepId)
    requires events != [] && (events[|events| - 1].payload.TaskScheduled? || events[|events| - 1].payload.TaskLeased?)
    requires ApplyCore(s, events[|events| - 1]).Ok? && StepShown(s, events[..|events| - 1], x)
    ensures StepShown(ApplyCore(s, events[|events| - 1]).value, events, x)
  {
  }

  lemma QuietShows(s: Core, events: seq<Event>, x: StepId)
    requires events != [] && ApplyCore(s, events[|events| - 1]).Ok? && StepShown(s, events[..|events| - 1], x)
    requires var p := events[|events| - 1].payload;
             !IsMove(p) && !p.TaskScheduled? && !p.TaskLeaseExpired?
    ensures StepShown(ApplyCore(s, events[|events| - 1]).value, events, x)
  {
    hide ApplyCore;
    QuietEvent(s, events[|events| - 1]);
  }

  lemma EventShows(def: Definition, s: Core, events: seq<Event>, x: StepId)
    requires events != [] && Legal(s, events[|events| - 1]) && ApplyCore(s, events[|events| - 1]).Ok?
    requires Inv(def, s) && StepShown(s, events[..|events| - 1], x)
    ensures StepShown(ApplyCore(s, events[|events| - 1]).value, events, x)
  {
    var p := events[|events| - 1].payload;
    assert !p.TaskLeaseExpired?;
    if p.TaskRetryScheduled? || p.TaskCancelled? {
      assert p.stepId in s.steps by { hide StepOk, OrderOk, ApplyCore, StepShown, LatestEligible;
               assert TaskOk(s, p.taskId); }
    }
    hide Inv, ApplyCore, StepShown, Legal;
    if p.TaskCompleted? || p.TimerFired? {
      CompletedShows(s, events, x);
    } else if p.TaskFailed? {
      FailedShows(s, events, x);
    } else if p.TaskRetryScheduled? || p.TaskCancelled? {
      RetryShows(s, events, x);
    } else if p.TaskScheduled? || p.TaskLeased? {
      ScheduledShows(s, events, x);
    } else {
      QuietShows(s, events, x);
    }
  }

  lemma TaskEnds(s: Core, events: seq<Event>, id: TaskId)
    requires events != [] && ApplyCore(s, events[|events| - 1]).Ok? && TaskShown(s, events[..|events| - 1], id)
    requires var p := events[|events| - 1].payload; p.TaskCompleted? || p.TimerFired? || p.TaskFailed?
    ensures TaskShown(ApplyCore(s, events[|events| - 1]).value, events, id)
  {
  }

  lemma TaskMoves(s: Core, events: seq<Event>, id: TaskId)
    requires events != [] && ApplyCore(s, events[|events| - 1]).Ok? && TaskShown(s, events[..|events| - 1], id)
    requires var p := events[|events| - 1].payload;
             p.TaskRetryScheduled? || p.TaskCancelled? || p.TaskLeased? || p.TaskHeartbeat?
    ensures TaskShown(ApplyCore(s, events[|events| - 1]).value, events, id)
  {
  }

  lemma TaskAppears(s: Core, events: seq<Event>, id: TaskId)
    requires events != [] && events[|events| - 1].payload.TaskScheduled? && Legal(s, events[|events| - 1])
    requires ApplyCore(s, events[|events| - 1]).Ok? && TaskShown(s, events[..|events| - 1], id)
    ensures TaskShown(ApplyCore(s, events[|events| - 1]).value, events, id)
  {
    hide LatestEligible, DependenciesCompleted, FitsStep;
  }

  lemma EventShowsTask(s: Core, events: seq<Event>, id: TaskId)
    requires events != [] && Legal(s, events[|events| - 1]) && ApplyCore(s, events[|events| - 1]).Ok?
    requires TaskShown(s, events[..|events| - 1], id)
    ensures TaskShown(ApplyCore(s, events[|events| - 1]).value, events, id)
  {
    var p := events[|events| - 1].payload;
    assert !p.TaskLeaseExpired?;
    if p.TaskCompleted? || p.TimerFired? || p.TaskFailed? {
      hide Legal, ApplyCore, TaskShown;
      TaskEnds(s, events, id);
    } else if p.TaskRetryScheduled? || p.TaskCancelled? || p.TaskLeased? || p.TaskHeartbeat? {
      hide Legal, ApplyCore, TaskShown;
      TaskMoves(s, events, id);
    } else if p.TaskScheduled? {
      hide Legal, ApplyCore, TaskShown;
      TaskAppears(s, events, id);
    } else {
      hide Legal;
    }
  }

  // ------------------------------------------------------------------ the whole history

  /** Outputs and errors that replay shows of steps and tasks are those that the history recorded last. */
  lemma {:induction false} ReplayShows(def: Definition, events: seq<Event>, x: StepId, id: TaskId)
    requires LegalFrom(InitialCore(def), events)
    ensures StepShown(StateOf(def, events), events, x) && TaskShown(StateOf(def, events), events, id)
  {
    hide Inv, Legal, ApplyCore, StateOf, LegalFrom, StepShown, TaskShown;
    if events == [] {
      StateOfEmpty(def);
      NothingShown(def, x, id);
    } else {
      var init := events[..|events| - 1];
      StateStep(def, events);
      ReplayShows(def, init, x, id);
      EventShows(def, StateOf(def, init), events, x);
      EventShowsTask(StateOf(def, init), events, id);
    }
  }

  lemma NothingShown(def: Definition, x: StepId, id: TaskId)
    ensures StepShown(InitialCore(def), [], x) && TaskShown(InitialCore(def), [], id)
  {
  }
}
