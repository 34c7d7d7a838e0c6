/** The life of a single task, as its history tells it. */
module Lifecycle {
  import opened Prelude
  import opened Workflow
  import opened History
  import opened Engine
  import opened Reducer
  import opened Invariant
  import opened Chronicle
  import opened Histories

  /** Where a task has got to: scheduled, leased, failed so far, or over; `retries` counts the retries before. */
  datatype Stage =
    | Unborn
    | Waiting(timer: bool, retries: nat)
    | Working(retries: nat)
    | Stopped(retries: nat)
    | Over
    | Broken

  /** The task an event is about. */
  function Subject(e: Event): Option<TaskId> {
    match e.payload
    case TaskScheduled(id, _, _, _, _, _, _, _, _, _) => Some(id)
    case TaskLeased(id, _, _, _, _) => Some(id)
    case TaskHeartbeat(id, _, _) => Some(id)
    case TaskCompleted(id, _, _, _, _) => Some(id)
    case TaskFailed(id, _, _, _, _) => Some(id)
    case TaskRetryScheduled(id, _, _, _, _) => Some(id)
    case TaskLeaseExpired(id, _, _) => Some(id)
    case TaskCancelled(id, _, _, _) => Some(id)
    case TimerFired(id, _) => Some(id)
    case _ => None
  }

  /** Scheduled (Leased Heartbeat* Failed Retry)^k, then Leased Heartbeat* and an end; a timer fires instead; either
      can be cancelled. */
  function NextStage(stage: Stage, p: Payload): Stage {
    if stage.Unborn? && p.TaskScheduled? then Waiting(p.kind.Timer?, 0)
    else if stage.Waiting? && !stage.timer && p.TaskLeased? then Working(stage.retries)
    else if stage.Waiting? && stage.timer && p.TimerFired? then Over
    else if stage.Working? && p.TaskHeartbeat? then stage
    else if stage.Working? && p.TaskCompleted? then Over
    else if stage.Working? && p.TaskFailed? then Stopped(stage.retries)
    else if stage.Stopped? && p.TaskRetryScheduled? then Waiting(false, stage.retries + 1)
    else if (stage.Waiting? || stage.Working?) && p.TaskCancelled? then Over
    else Broken
  }

  function StageIn(events: seq<Event>, id: TaskId): Stage {
    if |events| == 0 then Unborn
    else
      var stage := StageIn(events[..|events| - 1], id);
      if Subject(events[|events| - 1]) == Some(id) then NextStage(stage, events[|events| - 1].payload) else stage
  }

  function LeaseCount(events: seq<Event>, id: TaskId): nat {
    if |events| == 0 then 0
    else
      var e := events[|events| - 1];
      LeaseCount(events[..|events| - 1], id) + if e.payload.TaskLeased? && e.payload.taskId == id then 1 else 0
  }

  /** The replayed task is where the history says, with as many leases as attempts taken up. */
  predicate Tells(stage: Stage, leases: nat, s: Core, id: TaskId) {
    if id !in s.tasks then stage.Unborn? && leases == 0
    else
      var t := s.tasks[id];
      && leases <= t.attempt
      && match t.status
         case Available => stage == Waiting(t.kind.Timer?, leases) && t.attempt == leases + 1
         case Leased => stage.Working? && stage.retries + 1 == t.attempt == leases
         case Failed => stage.Stopped? && stage.retries + 1 == t.attempt == leases
         case _ => stage.Over?
  }

  lemma OtherTaskStays(s: Core, e: Event, id: TaskId)
    requires Legal(s, e) && ApplyCore(s, e).Ok? && Subject(e) != Some(id)
    ensures var s' := ApplyCore(s, e).value;
            (id in s'.tasks <==> id in s.tasks) && (id in s.tasks ==> s'.tasks[id] == s.tasks[id])
  {
    assert e.payload.TaskHeartbeat? ==> e.taskId == Some(e.payload.taskId);
    hide Legal, ApplyCore;
    if Subject(e).None? { RunEventKeepsTasks(s, e); } else { TaskEventIsLocal(s, e); }
  }

  lemma RunEventKeepsTasks(s: Core, e: Event)
    requires ApplyCore(s, e).Ok? && Subject(e).None?
    ensures ApplyCore(s, e).value.tasks == s.tasks
  {
  }

  lemma TaskEventIsLocal(s: Core, e: Event)
    requires ApplyCore(s, e).Ok? && Subject(e).Some?
    requires e.payload.TaskHeartbeat? ==> e.taskId == Some(e.payload.taskId)
    ensures var s', id := ApplyCore(s, e).value, Subject(e).value;
            id in s'.tasks && s'.tasks == s.tasks[id := s'.tasks[id]]
  {
    hide ApplyCore;
    if e.payload.TaskCompleted? || e.payload.TaskFailed? || e.payload.TimerFired? {
      EndIsLocal(s, e);
    } else if e.payload.TaskScheduled? || e.payload.TaskHeartbeat? || e.payload.TaskLeaseExpired? {
      BirthIsLocal(s, e);
    } else {
      StepIsLocal(s, e);
    }
  }

  lemma BirthIsLocal(s: Core, e: Event)
    requires ApplyCore(s, e).Ok?
             && (e.payload.TaskScheduled? || e.payload.TaskHeartbeat? || e.payload.TaskLeaseExpired?)
    requires e.payload.TaskHeartbeat? ==> e.taskId == Some(e.payload.taskId)
    ensures var s', id := ApplyCore(s, e).value, e.payload.taskId;
            id in s'.tasks && s'.tasks == s.tasks[id := s'.tasks[id]]
  {
  }

  lemma StepIsLocal(s: Core, e: Event)
    requires ApplyCore(s, e).Ok? && (e.payload.TaskLeased? || e.payload.TaskRetryScheduled? || e.payload.TaskCancelled?)
    ensures var s', id := ApplyCore(s, e).value, e.payload.taskId;
            id in s'.tasks && s'.tasks == s.tasks[id := s'.tasks[id]]
  {
  }

  lemma EndIsLocal(s: Core, e: Event)
    requires ApplyCore(s, e).Ok? && (e.payload.TaskCompleted? || e.payload.TaskFailed? || e.payload.TimerFired?)
    ensures var s', id := ApplyCore(s, e).value, e.payload.taskId;
            id in s'.tasks && s'.tasks == s.tasks[id := s'.tasks[id]]
  {
  }

  lemma OwnEventTells(def: Definition, s: Core, e: Event, id: TaskId, stage: Stage, leases: nat)
    requires Inv(def, s) && Legal(s, e) && ApplyCore(s, e).Ok? && Subject(e) == Some(id) && Tells(stage, leases, s, id)
    ensures Tells(NextStage(stage, e.payload), leases + (if e.payload.TaskLeased? then 1 else 0),
                  ApplyCore(s, e).value, id)
  {
    hide Inv, Legal, ApplyCore, NextStage, Tells;
    if e.payload.TaskCompleted? || e.payload.TaskFailed? || e.payload.TaskCancelled? || e.payload.TimerFired? {
      EndTells(def, s, e, id, stage, leases);
    } else {
      BeginningTells(def, s, e, id, stage, leases);
    }
  }

  lemma EndTells(def: Definition, s: Core, e: Event, id: TaskId, stage: Stage, leases: nat)
    requires Inv(def, s) && Legal(s, e) && ApplyCore(s, e).Ok? && Subject(e) == Some(id) && Tells(stage, leases, s, id)
    requires e.payload.TaskCompleted? || e.payload.TaskFailed? || e.payload.TaskCancelled? || e.payload.TimerFired?
    ensures Tells(NextStage(stage, e.payload), leases, ApplyCore(s, e).value, id)
  {
    assert TaskOk(s, id);
    hide Inv, StepOk, LatestEligible, DependenciesCompleted;
  }

  lemma BeginningTells(def: Definition, s: Core, e: Event, id: TaskId, stage: Stage, leases: nat)
    requires Inv(def, s) && Legal(s, e) && ApplyCore(s, e).Ok? && Subject(e) == Some(id) && Tells(stage, leases, s, id)
    requires e.payload.TaskScheduled? || e.payload.TaskLeased? || e.payload.TaskHeartbeat?
             || e.payload.TaskRetryScheduled? || e.payload.TaskLeaseExpired?
    ensures Tells(NextStage(stage, e.payload), leases + (if e.payload.TaskLeased? then 1 else 0),
                  ApplyCore(s, e).value, id)
  {
    if id in s.tasks { assert TaskOk(s, id); }
    hide Inv, StepOk, LatestEligible, DependenciesCompleted, FitsStep, BackoffForAttempt, AllCompleted;
  }

  /** Every task's events spell a word of the language, and replay stands where the word ends. */
  lemma {:induction false} HistoryTells(def: Definition, events: seq<Event>, id: TaskId)
    requires LegalFrom(InitialCore(def), events)
    ensures Tells(StageIn(events, id), LeaseCount(events, id), StateOf(def, events), id)
  {
    hide Inv, Legal, ApplyCore, StateOf, LegalFrom, NextStage, Tells;
    if events == [] {
      StateOfEmpty(def);
      assert Tells(Unborn, 0, InitialCore(def), id) by { NothingTold(def, id); }
    } else {
      var init, e := events[..|events| - 1], events[|events| - 1];
      StateStep(def, events);
      HistoryTells(def, init, id);
      if Subject(e) == Some(id) {
        OwnEventTells(def, StateOf(def, init), e, id, StageIn(init, id), LeaseCount(init, id));
      } else {
        OtherTaskStays(StateOf(def, init), e, id);
        TellsAlike(StageIn(init, id), LeaseCount(init, id), StateOf(def, init), StateOf(def, events), id);
      }
    }
  }

  lemma NothingTold(def: Definition, id: TaskId)
    ensures Tells(Unborn, 0, InitialCore(def), id)
  {
  }

  lemma TellsAlike(stage: Stage, leases: nat, s: Core, s': Core, id: TaskId)
    requires Tells(stage, leases, s, id)
    requires (id in s'.tasks <==> id in s.tasks) && (id in s.tasks ==> s'.tasks[id] == s.tasks[id])
    ensures Tells(stage, leases, s', id)
  {
  }

  /** No task is ever used out of turn, and none is leased more often than its step allows attempts. */
  lemma TaskLanguage(def: Definition, events: seq<Event>, id: TaskId)
    requires LegalFrom(InitialCore(def), events)
    ensures !StageIn(events, id).Broken?
    ensures StageIn(events, id).Unborn? <==> id !in StateOf(def, events).tasks
    ensures id in StateOf(def, events).tasks ==>
              var t := StateOf(def, events).tasks[id];
              && t.stepId in def.steps
              && LeaseCount(events, id) <= (if t.phase.Forward? then MaxAttempts(def.steps[t.stepId]) else 1)
              && (StageIn(events, id).Waiting? || StageIn(events, id).Working? || StageIn(events, id).Stopped? ==>
                    StageIn(events, id).retries < (if t.phase.Forward? then MaxAttempts(def.steps[t.stepId]) else 1))
  {
    hide StateOf, LegalFrom, StageIn, LeaseCount;
    HistoryTells(def, events, id);
    InvAtEnd(def, events);
    var s := StateOf(def, events);
    if id in s.tasks {
      assert TaskOk(s, id);
      assert StepOk(def, s, s.tasks[id].stepId);
    }
    hide Inv, StepOk;
  }

  // ------------------------------------------------------------------ never too early

  /** The event that made task `id` available for attempt `attempt`, at time `due`. */
  predicate MakesDue(e: Event, id: TaskId, attempt: int, due: Time) {
    || (e.payload.TaskScheduled? && e.payload.taskId == id && attempt == 1 && e.payload.availableAt == due)
    || (e.payload.TaskRetryScheduled? && e.payload.taskId == id && e.payload.attempt == attempt
         && e.payload.availableAt == due)
  }

  lemma {:induction false} DueSince(def: Definition, events: seq<Event>, id: TaskId) returns (i: nat)
    requires LegalFrom(InitialCore(def), events) && id in StateOf(def, events).tasks
    ensures var t := StateOf(def, events).tasks[id];
            i < |events| && MakesDue(events[i], id, t.attempt, t.availableAt)
  {
    hide Inv, Legal, ApplyCore, StateOf, LegalFrom, MakesDue;
    if events == [] {
      StateOfEmpty(def);
      assert false;
    } else {
      var init, e := events[..|events| - 1], events[|events| - 1];
      StateStep(def, events);
      var s, s' := StateOf(def, init), StateOf(def, events);
      if Subject(e) == Some(id) && (e.payload.TaskScheduled? || e.payload.TaskRetryScheduled?) {
        NewlyDue(s, e);
        i := |events| - 1;
      } else {
        KeepsDue(s, e, id);
        i := DueSince(def, init, id);
      }
    }
  }

  lemma NewlyDue(s: Core, e: Event)
    requires Legal(s, e) && ApplyCore(s, e).Ok? && (e.payload.TaskScheduled? || e.payload.TaskRetryScheduled?)
    ensures var id := e.payload.taskId;
            && id in ApplyCore(s, e).value.tasks
            && MakesDue(e, id, ApplyCore(s, e).value.tasks[id].attempt, ApplyCore(s, e).value.tasks[id].availableAt)
  {
  }

  lemma KeepsDue(s: Core, e: Event, id: TaskId)
    requires Legal(s, e) && ApplyCore(s, e).Ok?
             && !(Subject(e) == Some(id) && (e.payload.TaskScheduled? || e.payload.TaskRetryScheduled?))
    requires id in ApplyCore(s, e).value.tasks
    ensures id in s.tasks
    ensures s.tasks[id].attempt == ApplyCore(s, e).value.tasks[id].attempt
    ensures s.tasks[id].availableAt == ApplyCore(s, e).value.tasks[id].availableAt
  {
    hide ApplyCore;
    if Subject(e) == Some(id) {
      assert id in s.tasks;
      hide Legal;
      OwnEventKeeps(s, e, id);
    } else {
      hide Legal;
      OtherTaskStays(s, e, id);
    }
  }

  /** What happens to a task after it has been scheduled leaves alone what it is, and all but a retry when it is due. */
  lemma OwnEventKeeps(s: Core, e: Event, id: TaskId)
    requires ApplyCore(s, e).Ok? && Subject(e) == Some(id) && !e.payload.TaskScheduled? && id in s.tasks
    requires e.payload.TaskHeartbeat? ==> e.taskId == Some(id)
    ensures id in ApplyCore(s, e).value.tasks
    ensures var t, t' := s.tasks[id], ApplyCore(s, e).value.tasks[id];
            && t'.kind == t.kind && t'.stepId == t.stepId
            && (!e.payload.TaskRetryScheduled? ==> t'.attempt == t.attempt && t'.availableAt == t.availableAt)
  {
    hide ApplyCore;
    if e.payload.TaskCompleted? || e.payload.TaskFailed? || e.payload.TimerFired? || e.payload.TaskCancelled?
      || e.payload.TaskLeaseExpired? {
      OwnEndKeeps(s, e, id);
    } else {
      OwnStepKeeps(s, e, id);
    }
  }

  lemma OwnEndKeeps(s: Core, e: Event, id: TaskId)
    requires ApplyCore(s, e).Ok? && Subject(e) == Some(id) && id in s.tasks
    requires e.payload.TaskCompleted? || e.payload.TaskFailed? || e.payload.TimerFired? || e.payload.TaskCancelled?
             || e.payload.TaskLeaseExpired?
    ensures id in ApplyCore(s, e).value.tasks
    ensures var t, t' := s.tasks[id], ApplyCore(s, e).value.tasks[id];
            t'.kind == t.kind && t'.stepId == t.stepId && t'.attempt == t.attempt && t'.availableAt == t.availableAt
  {
  }

  lemma OwnStepKeeps(s: Core, e: Event, id: TaskId)
    requires ApplyCore(s, e).Ok? && Subject(e) == Some(id) && id in s.tasks
    requires e.payload.TaskLeased? || e.payload.TaskRetryScheduled?
             || (e.payload.TaskHeartbeat? && e.taskId == Some(id))
    ensures id in ApplyCore(s, e).value.tasks
    ensures var t, t' := s.tasks[id], ApplyCore(s, e).value.tasks[id];
            && t'.kind == t.kind && t'.stepId == t.stepId
            && (!e.payload.TaskRetryScheduled? ==> t'.attempt == t.attempt && t'.availableAt == t.availableAt)
  {
  }

  /** Where a due time comes from: the scheduling, with the delay of a timer, or the retry, with its backoff. */
  lemma DueTime(def: Definition, events: seq<Event>, i: nat, id: TaskId, attempt: int, due: Time)
    requires LegalFrom(InitialCore(def), events) && i < |events| && MakesDue(events[i], id, attempt, due)
    ensures events[i].payload.stepId in def.steps
    ensures var step := def.steps[events[i].payload.stepId];
            due == events[i].createdAt
                   + (if events[i].payload.TaskScheduled?
                      then (if events[i].payload.kind.Timer? then step.delay else 0)
                      else BackoffForAttempt(step.retry.Normalize(), attempt - 1))
  {
    hide ApplyCore, StateOf, LegalFrom, BackoffForAttempt, LatestEligible, DependenciesCompleted;
    At(def, events, i) by { hide Inv, Legal; }
    var s := StateOf(def, events[..i]);
    assert events[i].payload.TaskScheduled? || events[i].payload.TaskRetryScheduled?;
    DefinedStep(def, s, events[i].payload.stepId) by { hide Inv; }
    hide Inv;
  }

  /** A lease is handed out less than a second before it is due: at once for the first attempt, after the backoff for
      a retry. */
  lemma LeaseNotEarly(def: Definition, events: seq<Event>, j: nat) returns (i: nat)
    requires LegalFrom(InitialCore(def), events) && j < |events| && events[j].payload.TaskLeased?
    ensures i < j
    ensures events[i].payload.TaskScheduled? || events[i].payload.TaskRetryScheduled?
    ensures events[i].payload.taskId == events[j].payload.taskId && events[i].payload.stepId in def.steps
    ensures events[i].payload.TaskScheduled? ==>
              events[j].payload.attempt == 1 && events[j].createdAt + SECOND > events[i].createdAt
    ensures events[i].payload.TaskRetryScheduled? ==>
              && events[i].payload.attempt == events[j].payload.attempt
              && events[j].createdAt + SECOND
                 > events[i].createdAt + BackoffForAttempt(def.steps[events[i].payload.stepId].retry.Normalize(),
                                                           events[j].payload.attempt - 1)
  {
    hide ApplyCore, StateOf, LegalFrom, BackoffForAttempt, Inv;
    At(def, events, j) by { hide Legal; }
    var id, s := events[j].payload.taskId, StateOf(def, events[..j]);
    i := DueSince(def, events[..j], id);
    DueTime(def, events, i, id, s.tasks[id].attempt, s.tasks[id].availableAt) by { hide Legal; }
    hide Legal;
    if events[i].payload.TaskScheduled? { ActivityIsDueAtOnce(def, events, i, j, id); }
  }

  lemma EventKeepsKind(s: Core, e: Event, id: TaskId)
    requires Legal(s, e) && ApplyCore(s, e).Ok? && id in s.tasks
    ensures id in ApplyCore(s, e).value.tasks
    ensures ApplyCore(s, e).value.tasks[id].kind == s.tasks[id].kind
            && ApplyCore(s, e).value.tasks[id].stepId == s.tasks[id].stepId
  {
    hide ApplyCore;
    if Subject(e) == Some(id) {
      assert !e.payload.TaskScheduled?;
      assert e.payload.TaskHeartbeat? ==> e.taskId == Some(id);
      hide Legal;
      OwnEventKeeps(s, e, id);
    } else {
      hide Legal;
      OtherTaskStays(s, e, id);
    }
  }

  lemma {:induction false} KindKept(def: Definition, events: seq<Event>, i: nat, n: nat, id: TaskId)
    requires LegalFrom(InitialCore(def), events) && i <= n <= |events| && id in StateOf(def, events[..i]).tasks
    ensures id in StateOf(def, events[..n]).tasks
    ensures StateOf(def, events[..n]).tasks[id].kind == StateOf(def, events[..i]).tasks[id].kind
    ensures StateOf(def, events[..n]).tasks[id].stepId == StateOf(def, events[..i]).tasks[id].stepId
  {
    hide Inv, Legal, ApplyCore, StateOf, LegalFrom;
    if i < n {
      KindKept(def, events, i, n - 1, id);
      At(def, events, n - 1);
      EventKeepsKind(StateOf(def, events[..n - 1]), events[n - 1], id);
    }
  }

  lemma BirthKind(s: Core, e: Event)
    requires e.payload.TaskScheduled? && ApplyCore(s, e).Ok?
    ensures e.payload.taskId in ApplyCore(s, e).value.tasks
    ensures ApplyCore(s, e).value.tasks[e.payload.taskId].kind == e.payload.kind
    ensures ApplyCore(s, e).value.tasks[e.payload.taskId].stepId == e.payload.stepId
  {
  }

  /** The task that was scheduled at `i` is the one that is taken up at `j`. */
  lemma SameKind(def: Definition, events: seq<Event>, i: nat, j: nat)
    requires LegalFrom(InitialCore(def), events) && i < j < |events| && events[i].payload.TaskScheduled?
    ensures var t, p := StateOf(def, events[..j]).tasks, events[i].payload;
            p.taskId in t && t[p.taskId].kind == p.kind && t[p.taskId].stepId == p.stepId
  {
    hide ApplyCore, StateOf, LegalFrom, Inv, Legal;
    At(def, events, i);
    BirthKind(StateOf(def, events[..i]), events[i]);
    KindKept(def, events, i + 1, j, events[i].payload.taskId);
  }

  /** Only activities are leased, and an activity is scheduled for at once. */
  lemma ActivityIsDueAtOnce(def: Definition, events: seq<Event>, i: nat, j: nat, id: TaskId)
    requires LegalFrom(InitialCore(def), events) && i < j < |events|
    requires events[j].payload.TaskLeased? && events[j].payload.taskId == id
    requires events[i].payload.TaskScheduled? && events[i].payload.taskId == id
    ensures !events[i].payload.kind.Timer?
  {
    hide ApplyCore, StateOf, LegalFrom, Inv;
    At(def, events, j) by { hide Legal; }
    SameKind(def, events, i, j) by { hide Legal; }
  }

  /** A timer fires no earlier than its delay after it was scheduled, however the store compared the times. */
  lemma TimerNotEarly(def: Definition, events: seq<Event>, j: nat) returns (i: nat)
    requires LegalFrom(InitialCore(def), events) && j < |events| && events[j].payload.TimerFired?
    ensures i < j && events[i].payload.TaskScheduled? && events[i].payload.taskId == events[j].payload.taskId
    ensures events[i].payload.stepId == events[j].payload.stepId && events[i].payload.stepId in def.steps
    ensures events[j].createdAt >= events[i].createdAt + def.steps[events[i].payload.stepId].delay
  {
    hide ApplyCore, StateOf, LegalFrom, BackoffForAttempt, Inv;
    At(def, events, j) by { hide Legal; }
    var id, s := events[j].payload.taskId, StateOf(def, events[..j]);
    i := DueSince(def, events[..j], id);
    DueTime(def, events, i, id, s.tasks[id].attempt, s.tasks[id].availableAt) by { hide Legal; }
    if events[i].payload.TaskRetryScheduled? {
      TimersAreNotRetried(def, events, i, j) by { hide Legal; }
    } else {
      SameKind(def, events, i, j) by { hide Legal; }
    }
  }

  lemma TimersAreNotRetried(def: Definition, events: seq<Event>, i: nat, j: nat)
    requires LegalFrom(InitialCore(def), events) && i < j < |events| && events[i].payload.TaskRetryScheduled?
    ensures var id := events[i].payload.taskId;
            id in StateOf(def, events[..j]).tasks && !StateOf(def, events[..j]).tasks[id].kind.Timer?
  {
    hide ApplyCore, StateOf, LegalFrom, BackoffForAttempt, StepOk;
    At(def, events, i) by { hide Inv, Legal; }
    var s, id := StateOf(def, events[..i]), events[i].payload.taskId;
    assert TaskOk(s, id);
    hide Inv, Legal;
    KindKept(def, events, i, j, id);
  }
}
