/** What holds inside every history: the order of completions, inputs, compensations and cancellation. */
module Histories {
  import opened Prelude
  import opened Workflow
  import opened History
  import opened Engine
  import opened Reducer
  import opened Invariant
  import opened Chronicle
  import opened Tracking

  // ------------------------------------------------------------------ what a history says, read without replaying it

  /** The step whose forward task `e` completes, and the output it completes with. */
  function Completion(e: Event): Option<(StepId, Json)> {
    match e.payload
    case TaskCompleted(_, x, _, output, compensation) => if compensation then None else Some((x, output))
    case TimerFired(_, x) => Some((x, Null))
    case _ => None
  }

  predicate SchedulesTask(e: Event, x: StepId, compensation: bool) {
    e.payload.TaskScheduled? && e.payload.stepId == x && e.payload.compensation == compensation
  }

  /** The steps completed so far, in the order of their completion events. */
  function CompletedSteps(events: seq<Event>): seq<StepId> {
    if |events| == 0 then []
    else
      var done := CompletedSteps(events[..|events| - 1]);
      match Completion(events[|events| - 1])
      case None => done
      case Some(c) => done + [c.0]
  }

  /** What they completed with. */
  function CompletedOutputs(events: seq<Event>): map<StepId, Json> {
    if |events| == 0 then map[]
    else
      var outputs := CompletedOutputs(events[..|events| - 1]);
      match Completion(events[|events| - 1])
      case None => outputs
      case Some(c) => outputs[c.0 := c.1]
  }

  /** The steps scheduled so far, going forward or in compensation, in the order of scheduling. */
  function ScheduledSteps(events: seq<Event>, compensation: bool): seq<StepId> {
    if |events| == 0 then []
    else
      var e := events[|events| - 1];
      ScheduledSteps(events[..|events| - 1], compensation)
      + if e.payload.TaskScheduled? && e.payload.compensation == compensation then [e.payload.stepId] else []
  }

  predicate CancelledBy(events: seq<Event>) {
    exists i :: 0 <= i < |events| && events[i].payload.RunCancelRequested?
  }

  // ------------------------------------------------------------------ replay agrees

  predicate IsMove(p: Payload) {
    IsWork(p) || p.TaskRetryScheduled?
  }

  lemma MoveMoves(def: Definition, s: Core, e: Event)
    requires Inv(def, s) && Legal(s, e) && IsMove(e.payload)
    ensures ApplyCore(s, e).Ok? && Moves(s, ApplyCore(s, e).value, e.payload.taskId)
  {
    hide Inv, Legal, ApplyCore, Moves;
    if e.payload.TaskCompleted?
      || e.payload.TimerFired? { CompletionMoves(def, s, e); } else { TaskEventMoves(def, s, e); }
  }

  /** Heartbeats and run-level events leave steps, outputs and order alone. */
  lemma QuietEvent(s: Core, e: Event)
    requires !IsMove(e.payload) && !e.payload.TaskScheduled? && !e.payload.TaskLeaseExpired? && ApplyCore(s, e).Ok?
    ensures var s' := ApplyCore(s, e).value;
            s'.steps == s.steps && s'.outputs == s.outputs && s'.completedOrder == s.completedOrder
  {
    hide ApplyCore;
    if e.payload.TaskHeartbeat? { QuietHeartbeat(s, e); } else { QuietRunEvent(s, e); }
  }

  lemma QuietHeartbeat(s: Core, e: Event)
    requires e.payload.TaskHeartbeat? && ApplyCore(s, e).Ok?
    ensures var s' := ApplyCore(s, e).value;
            s'.steps == s.steps && s'.outputs == s.outputs && s'.completedOrder == s.completedOrder
  {
  }

  lemma QuietRunEvent(s: Core, e: Event)
    requires !IsMove(e.payload) && !e.payload.TaskScheduled? && !e.payload.TaskLeaseExpired?
             && !e.payload.TaskHeartbeat? && ApplyCore(s, e).Ok?
    ensures var s' := ApplyCore(s, e).value;
            s'.steps == s.steps && s'.outputs == s.outputs && s'.completedOrder == s.completedOrder
  {
  }

  lemma SchedulingEvent(s: Core, e: Event)
    requires e.payload.TaskScheduled? && Legal(s, e) && ApplyCore(s, e).Ok?
    ensures var s', x := ApplyCore(s, e).value, e.payload.stepId;
            && s'.outputs == s.outputs && s'.completedOrder == s.completedOrder
            && x in s.steps && x in s'.steps && s'.steps == s.steps[x := s'.steps[x]]
            && (e.payload.compensation ==>
                  s'.steps[x].forwardTaskId == s.steps[x].forwardTaskId && s'.steps[x].compensationScheduled
                    && !s.steps[x].compensationScheduled)
            && (!e.payload.compensation ==>
                  && s.steps[x].forwardTaskId.None? && s'.steps[x].forwardTaskId.Some?
                  && s'.steps[x].compensationScheduled == s.steps[x].compensationScheduled)
  {
    hide DependenciesCompleted, FitsStep;
  }

  lemma EventCompletes(def: Definition, s: Core, e: Event)
    requires Inv(def, s) && Legal(s, e) && ApplyCore(s, e).Ok?
    ensures var s' := ApplyCore(s, e).value;
            match Completion(e)
            case None => s'.completedOrder == s.completedOrder && s'.outputs == s.outputs
            case Some(c) =>
              s'.completedOrder == s.completedOrder + [c.0] && s'.outputs == s.outputs[c.0 := c.1]
              && c.0 !in s.completedOrder
  {
    hide Inv, Moves, LatestEligible, DependenciesCompleted, FitsStep, BackoffForAttempt;
    if Completion(e).Some? {
      CompletionEvent(def, s, e) by { hide Legal, ApplyCore; }
    } else if IsMove(e.payload) {
      MoveWithoutCompletion(s, e) by { hide Legal, ApplyCore; }
    } else if e.payload.TaskScheduled? {
      hide ApplyCore;
      SchedulingEvent(s, e) by { hide Legal; }
    } else {
      hide ApplyCore;
      QuietEvent(s, e) by { hide Legal; }
    }
  }

  lemma CompletionEvent(def: Definition, s: Core, e: Event)
    requires Inv(def, s) && Legal(s, e) && ApplyCore(s, e).Ok? && Completion(e).Some?
    ensures var s', c := ApplyCore(s, e).value, Completion(e).value;
            s'.completedOrder == s.completedOrder + [c.0] && s'.outputs == s.outputs[c.0 := c.1]
              && c.0 !in s.completedOrder
  {
    if e.payload.TimerFired? { TimerIsForward(def, s, e.payload.taskId) by { hide ApplyCore, Legal; } }
    NotYetCompleted(def, s, e.payload.taskId) by { hide ApplyCore; }
    hide Inv;
  }

  lemma MoveWithoutCompletion(s: Core, e: Event)
    requires ApplyCore(s, e).Ok? && Completion(e).None? && IsMove(e.payload)
    ensures var s' := ApplyCore(s, e).value; s'.completedOrder == s.completedOrder && s'.outputs == s.outputs
  {
  }

  predicate IsScheduled(s: Core, x: StepId, compensation: bool) {
    x in s.steps && if compensation then s.steps[x].compensationScheduled else s.steps[x].forwardTaskId.Some?
  }

  lemma EventSchedules(def: Definition, s: Core, e: Event, x: StepId, compensation: bool)
    requires Inv(def, s) && Legal(s, e) && ApplyCore(s, e).Ok?
    ensures IsScheduled(ApplyCore(s, e).value, x, compensation)
            <==> IsScheduled(s, x, compensation) || SchedulesTask(e, x, compensation)
    ensures SchedulesTask(e, x, compensation) ==> !IsScheduled(s, x, compensation)
  {
    hide Inv, LatestEligible, DependenciesCompleted, FitsStep, BackoffForAttempt;
    assert !e.payload.TaskLeaseExpired?;
    hide Legal, ApplyCore;
    if IsMove(e.payload) { MoveMoves(def, s, e); } else if e.payload.TaskScheduled? { SchedulingEvent(s, e); }
        else { QuietEvent(s, e); }
  }

  lemma EventCancels(s: Core, e: Event)
    requires ApplyCore(s, e).Ok?
    ensures ApplyCore(s, e).value.cancelRequested <==> s.cancelRequested || e.payload.RunCancelRequested?
  {
  }

  /** The state a legal history replays to. */
  function StateOf(def: Definition, events: seq<Event>): Core {
    FoldCore(InitialCore(def), events).GetOr(InitialCore(def))
  }

  lemma StateStep(def: Definition, events: seq<Event>)
    requires LegalFrom(InitialCore(def), events) && events != []
    ensures var init, e := events[..|events| - 1], events[|events| - 1];
            && LegalFrom(InitialCore(def), init)
            && Inv(def, StateOf(def, init)) && Legal(StateOf(def, init), e)
            && ApplyCore(StateOf(def, init), e) == Ok(StateOf(def, events))
  {
    hide Inv, Legal, ApplyCore, InitialCore;
    var init := events[..|events| - 1];
    InitialInv(def);
    LegalFromKeepsInv(def, InitialCore(def), init);
    LegalKeepsInv(def, StateOf(def, init), events[|events| - 1]);
  }

  lemma {:induction false} ReplayCompletes(def: Definition, events: seq<Event>)
    requires LegalFrom(InitialCore(def), events)
    ensures StateOf(def, events).completedOrder == CompletedSteps(events)
    ensures StateOf(def, events).outputs == CompletedOutputs(events)
  {
    hide Inv, Legal, ApplyCore, StateOf, LegalFrom;
    if events == [] {
      assert StateOf(def, []) == InitialCore(def) by { StateOfEmpty(def); }
    } else {
      StateStep(def, events);
      ReplayCompletes(def, events[..|events| - 1]);
      EventCompletes(def, StateOf(def, events[..|events| - 1]), events[|events| - 1]);
    }
  }

  lemma StateOfEmpty(def: Definition)
    ensures StateOf(def, []) == InitialCore(def)
  {
  }

  lemma {:induction false} ReplaySchedules(def: Definition, events: seq<Event>, x: StepId, compensation: bool)
    requires LegalFrom(InitialCore(def), events)
    ensures IsScheduled(StateOf(def, events), x, compensation) <==> x in ScheduledSteps(events, compensation)
  {
    hide Inv, Legal, ApplyCore, StateOf, LegalFrom;
    if events == [] {
      StateOfEmpty(def);
    } else {
      StateStep(def, events);
      ReplaySchedules(def, events[..|events| - 1], x, compensation);
      EventSchedules(def, StateOf(def, events[..|events| - 1]), events[|events| - 1], x, compensation);
    }
  }

  lemma {:induction false} ReplayCancels(def: Definition, events: seq<Event>)
    requires LegalFrom(InitialCore(def), events)
    ensures StateOf(def, events).cancelRequested <==> CancelledBy(events)
  {
    hide Inv, Legal, ApplyCore, StateOf, LegalFrom;
    if events == [] {
      StateOfEmpty(def);
    } else {
      var init := events[..|events| - 1];
      StateStep(def, events);
      ReplayCancels(def, init);
      EventCancels(StateOf(def, init), events[|events| - 1]);
      assert forall i :: 0 <= i < |init| ==> events[i] == init[i];
    }
  }

  /** The state before the event at position `i`, and why that event was legal. */
  lemma At(def: Definition, events: seq<Event>, i: nat)
    requires LegalFrom(InitialCore(def), events) && i < |events|
    ensures LegalFrom(InitialCore(def), events[..i]) && LegalFrom(InitialCore(def), events[..i + 1])
    ensures Inv(def, StateOf(def, events[..i])) && Legal(StateOf(def, events[..i]), events[i])
    ensures ApplyCore(StateOf(def, events[..i]), events[i]) == Ok(StateOf(def, events[..i + 1]))
  {
    hide Inv, Legal, ApplyCore, StateOf, LegalFrom;
    LegalFromPrefix(InitialCore(def), events, i);
    LegalFromPrefix(InitialCore(def), events, i + 1);
    StateStep(def, events[..i + 1]);
    assert events[..i + 1][..i] == events[..i];
  }

  lemma InvAtEnd(def: Definition, events: seq<Event>)
    requires LegalFrom(InitialCore(def), events)
    ensures Inv(def, StateOf(def, events))
  {
    hide Inv, Legal, ApplyCore;
    InitialInv(def);
    LegalFromKeepsInv(def, InitialCore(def), events);
  }

  // ------------------------------------------------------------------ completions

  /** Steps complete once each, and every step after all its dependencies. */
  lemma CompletionOrder(def: Definition, events: seq<Event>)
    requires LegalFrom(InitialCore(def), events)
    ensures NoDup(CompletedSteps(events))
    ensures DependenciesFirst(def.steps, CompletedSteps(events))
    ensures forall x :: x in CompletedSteps(events) <==> x in CompletedOutputs(events)
  {
    hide StateOf, StepOk, TaskOk;
    InvAtEnd(def, events);
    ReplayCompletes(def, events);
  }

  lemma {:induction false} CompletionOf(events: seq<Event>, x: StepId) returns (j: nat)
    requires x in CompletedOutputs(events)
    ensures j < |events| && Completion(events[j]) == Some((x, CompletedOutputs(events)[x]))
  {
    hide Completion;
    var last := |events| - 1;
    if Completion(events[last]).Some? && Completion(events[last]).value.0 == x {
      j := last;
    } else {
      j := CompletionOf(events[..last], x);
    }
  }

  // ------------------------------------------------------------------ going forward

  /** A step is scheduled once, when all its dependencies have completed and nobody has asked to cancel the run. */
  lemma ForwardScheduling(def: Definition, events: seq<Event>, i: nat)
    requires LegalFrom(InitialCore(def), events) && i < |events|
    requires events[i].payload.TaskScheduled? && !events[i].payload.compensation
    ensures var x, before := events[i].payload.stepId, events[..i];
            && x in def.steps && x !in ScheduledSteps(before, false) && !CancelledBy(before)
            && (forall k :: 0 <= k < |def.steps[x].dependencies|
                 ==> def.steps[x].dependencies[k] in CompletedSteps(before))
  {
    hide Inv, ApplyCore, StateOf, FitsStep, LegalFrom;
    At(def, events, i);
    ReplayCompletes(def, events[..i]);
    ReplayCancels(def, events[..i]);
    ReplaySchedules(def, events[..i], events[i].payload.stepId, false);
    CompletionOrder(def, events[..i]);
    DefinedStep(def, StateOf(def, events[..i]), events[i].payload.stepId);
  }

  lemma DefinedStep(def: Definition, s: Core, x: StepId)
    requires Inv(def, s) && x in s.steps
    ensures x in def.steps && s.steps[x].definition == def.steps[x]
  {
    assert StepOk(def, s, x);
  }

  /** The task is handed what each dependency completed with: no more, no less. */
  lemma ForwardInput(def: Definition, events: seq<Event>, i: nat, y: StepId) returns (j: nat)
    requires LegalFrom(InitialCore(def), events) && i < |events| && Filed(def.steps, def.order)
    requires events[i].payload.TaskScheduled? && !events[i].payload.compensation
    requires events[i].payload.stepId in def.steps && y in def.steps[events[i].payload.stepId].dependencies
    ensures forall z :: z in events[i].payload.dependencies ==> z in def.steps[events[i].payload.stepId].dependencies
    ensures y in events[i].payload.dependencies
    ensures j < i && Completion(events[j]) == Some((y, events[i].payload.dependencies[y]))
  {
    hide Inv, ApplyCore, StateOf, LegalFrom, DependenciesCompleted;
    At(def, events, i);
    ReplayCompletes(def, events[..i]);
    ForwardScheduling(def, events, i);
    CompletionOrder(def, events[..i]);
    DefinedStep(def, StateOf(def, events[..i]), events[i].payload.stepId);
    hide Legal;
    j := CompletionOf(events[..i], y);
  }

  /** The kind, queue and activity of a task are those its step names, going forward or for its compensation. */
  lemma ScheduledAsDefined(def: Definition, events: seq<Event>, i: nat)
    requires LegalFrom(InitialCore(def), events) && i < |events| && events[i].payload.TaskScheduled?
    ensures events[i].payload.stepId in def.steps
    ensures var p, step := events[i].payload, def.steps[events[i].payload.stepId];
            && p.attempt == 1
            && (p.compensation ==>
                  && p.kind.Activity? && p.activity == step.compensation && p.maxAttempts == MaxAttempts(step)
                  && p.queue == (if step.compensationQueue == "" then step.queue else step.compensationQueue)
                  && p.availableAt == events[i].createdAt)
            && (!p.compensation && step.kind.Timer? ==>
                  p.kind.Timer? && p.queue == TIMER_QUEUE && p.maxAttempts == 1
                    && p.availableAt == events[i].createdAt + step.delay)
            && (!p.compensation && !step.kind.Timer? ==>
                  && p.kind == step.kind && p.queue == step.queue && p.activity == step.activity
                  && p.maxAttempts == MaxAttempts(step) && p.availableAt == events[i].createdAt)
  {
    hide Inv, ApplyCore, StateOf, LegalFrom, LatestEligible, TaskInput, DependenciesCompleted;
    At(def, events, i);
    DefinedStep(def, StateOf(def, events[..i]), events[i].payload.stepId);
  }

  /** A compensation is handed what its own step completed with. */
  lemma CompensationInput(def: Definition, events: seq<Event>, i: nat) returns (j: nat)
    requires LegalFrom(InitialCore(def), events) && i < |events| && Filed(def.steps, def.order)
    requires events[i].payload.TaskScheduled? && events[i].payload.compensation
    ensures var p := events[i].payload;
            && p.stepId in p.dependencies
            && j < i && Completion(events[j]) == Some((p.stepId, p.dependencies[p.stepId]))
            && p.stepId in def.steps
            && forall z :: z in p.dependencies ==> z == p.stepId || z in def.steps[p.stepId].dependencies
  {
    hide Inv, ApplyCore, StateOf, LegalFrom, DependenciesCompleted, LatestEligible;
    At(def, events, i);
    ReplayCompletes(def, events[..i]);
    CompletionOrder(def, events[..i]);
    var x := events[i].payload.stepId;
    DefinedStep(def, StateOf(def, events[..i]), x);
    var p := CompensationScheduling(def, events, i);
    assert x in CompletedSteps(events[..i]);
    assert def.steps[x].id == x;
    hide Legal;
    j := CompletionOf(events[..i], x);
  }

  // ------------------------------------------------------------------ unwinding

  lemma {:induction false} ScheduledAt(events: seq<Event>, i: nat, n: nat, compensation: bool)
    requires i < n <= |events| && events[i].payload.TaskScheduled? && events[i].payload.compensation == compensation
    ensures events[i].payload.stepId in ScheduledSteps(events[..n], compensation)
  {
    var prefix := events[..n];
    assert prefix[..n - 1] == events[..n - 1];
    if i < n - 1 {
      ScheduledAt(events, i, n - 1, compensation);
    }
  }

  lemma {:induction false} ListsGrow(events: seq<Event>, m: nat, n: nat, compensation: bool)
    requires m <= n <= |events|
    ensures ScheduledSteps(events[..m], compensation) <= ScheduledSteps(events[..n], compensation)
    ensures CompletedSteps(events[..m]) <= CompletedSteps(events[..n])
  {
    hide Completion;
    if m < n {
      ListsGrow(events, m, n - 1, compensation);
      assert events[..n][..n - 1] == events[..n - 1];
    }
  }

  /** No step is scheduled twice, neither going forward nor in compensation. */
  lemma {:induction false} ScheduledOnce(def: Definition, events: seq<Event>, compensation: bool)
    requires LegalFrom(InitialCore(def), events)
    ensures NoDup(ScheduledSteps(events, compensation))
  {
    hide Inv, Legal, ApplyCore, StateOf, LegalFrom, InitialCore;
    if events != [] {
      var init, e := events[..|events| - 1], events[|events| - 1];
      StateStep(def, events);
      ScheduledOnce(def, init, compensation);
      if e.payload.TaskScheduled? && e.payload.compensation == compensation {
        ReplaySchedules(def, init, e.payload.stepId, compensation);
        EventSchedules(def, StateOf(def, init), e, e.payload.stepId, compensation);
      }
    }
  }

  /** Every compensable step that completed after position `p` has had its compensation scheduled. */
  predicate LaterCompensated(def: Definition, done: seq<StepId>, p: nat, scheduled: seq<StepId>) {
    forall q :: p < q < |done| && done[q] in def.steps && def.steps[done[q]].compensation != "" ==> done[q] in scheduled
  }

  /** A compensation is scheduled once, for a completed step, when those of all later steps have been. */
  lemma CompensationScheduling(def: Definition, events: seq<Event>, i: nat) returns (p: nat)
    requires LegalFrom(InitialCore(def), events) && i < |events|
    requires events[i].payload.TaskScheduled? && events[i].payload.compensation
    ensures var x, done := events[i].payload.stepId, CompletedSteps(events[..i]);
            && x in def.steps && def.steps[x].compensation != "" && x !in ScheduledSteps(events[..i], true)
            && p < |done| && done[p] == x
            && LaterCompensated(def, done, p, ScheduledSteps(events[..i], true))
  {
    hide ApplyCore, StateOf, FitsStep, LegalFrom;
    var s, x := StateOf(def, events[..i]), events[i].payload.stepId;
    At(def, events, i) by { hide Inv; }
    ReplayCompletes(def, events[..i]);
    ReplaySchedules(def, events[..i], x, true);
    p := LatestPosition(def, s, x) by { hide Inv; }
    hide Legal, NextCompensation;
    forall q | p < q < |s.completedOrder| && s.completedOrder[q] in def.steps
      && def.steps[s.completedOrder[q]].compensation != ""
      ensures s.completedOrder[q] in ScheduledSteps(events[..i], true)
    {
      hide Inv;
      ReplaySchedules(def, events[..i], s.completedOrder[q], true);
    }
    hide Inv;
    DefinedStep(def, s, x);
  }

  lemma LatestPosition(def: Definition, s: Core, x: StepId) returns (p: nat)
    requires Inv(def, s) && NextCompensation(s) == Some(x)
    ensures p < |s.completedOrder| && s.completedOrder[p] == x && Eligible(s.steps, x)
    ensures forall q ::
              p < q < |s.completedOrder| && s.completedOrder[q] in def.steps
              && def.steps[s.completedOrder[q]].compensation != "" ==>
                IsScheduled(s, s.completedOrder[q], true)
  {
    p :| 0 <= p < |s.completedOrder| && s.completedOrder[p] == x && Eligible(s.steps, x)
         && forall j :: p < j < |s.completedOrder| ==> !Eligible(s.steps, s.completedOrder[j]);
    forall q | p < q < |s.completedOrder| && s.completedOrder[q] in def.steps
      && def.steps[s.completedOrder[q]].compensation != ""
      ensures IsScheduled(s, s.completedOrder[q], true)
    {
      assert StepOk(def, s, s.completedOrder[q]);
    }
  }

  /** Of two compensations, the later one is for the step that completed earlier, unless it completed in between. */
  lemma CompensationsDescend(def: Definition, events: seq<Event>, i: nat, j: nat) returns (p: nat, q: nat)
    requires LegalFrom(InitialCore(def), events) && i < j < |events|
    requires events[i].payload.TaskScheduled? && events[i].payload.compensation
    requires events[j].payload.TaskScheduled? && events[j].payload.compensation
    ensures var before, done := CompletedSteps(events[..i]), CompletedSteps(events[..j]);
            && before <= done && p < |before| && q < |done|
            && done[p] == events[i].payload.stepId && done[q] == events[j].payload.stepId
            && (q < p || q >= |before|)
  {
    hide LegalFrom, CompletedSteps, ScheduledSteps;
    p := CompensationScheduling(def, events, i);
    q := CompensationScheduling(def, events, j);
    ListsGrow(events, i, j, true);
    ScheduledAt(events, i, j, true);
  }

  // ------------------------------------------------------------------ after a cancel request

  predicate GoesForward(e: Event) {
    || e.payload.TimerFired? || e.payload.TaskRetryScheduled?
    || ((e.payload.TaskScheduled? || e.payload.TaskCompleted? || e.payload.TaskFailed?) && !e.payload.compensation)
  }

  /** Once cancelling has been asked for, no forward task is scheduled, leased, renewed, completed, failed or
      retried. */
  lemma CancelStopsForward(def: Definition, events: seq<Event>, c: nat, k: nat)
    requires LegalFrom(InitialCore(def), events) && c < k < |events| && events[c].payload.RunCancelRequested?
    ensures !GoesForward(events[k])
    ensures events[k].payload.TaskLeased? || events[k].payload.TaskHeartbeat? ==>
              events[k].payload.taskId in StateOf(def, events[..k]).tasks
              && StateOf(def, events[..k]).tasks[events[k].payload.taskId].phase.Compensation?
  {
    hide ApplyCore, StateOf, FitsStep, LegalFrom, NextCompensation, DependenciesCompleted;
    At(def, events, k);
    ReplayCancels(def, events[..k]);
    assert events[..k][c] == events[c];
    var s := StateOf(def, events[..k]);
    if events[k].payload.TimerFired? {
      TimerIsForward(def, s, events[k].payload.taskId) by { hide Legal; }
    }
    hide Inv;
  }

  /** So the steps completed by then are all that ever complete, and all that can be compensated. */
  lemma {:induction false} CancelFreezesCompletions(def: Definition, events: seq<Event>, c: nat, n: nat)
    requires LegalFrom(InitialCore(def), events) && c < n <= |events| && events[c].payload.RunCancelRequested?
    ensures CompletedSteps(events[..n]) == CompletedSteps(events[..c])
  {
    hide LegalFrom;
    assert events[..n][..n - 1] == events[..n - 1];
    if n > c + 1 {
      CancelFreezesCompletions(def, events, c, n - 1);
      CancelStopsForward(def, events, c, n - 1);
    }
  }

  /** Compensations scheduled after a cancel request walk strictly down the frozen order of completions. */
  lemma CancelledCompensationsDescend(def: Definition, events: seq<Event>, c: nat, i: nat, j: nat)
    returns (p: nat, q: nat)
    requires LegalFrom(InitialCore(def), events) && c < i < j < |events| && events[c].payload.RunCancelRequested?
    requires events[i].payload.TaskScheduled? && events[j].payload.TaskScheduled?
    ensures var done := CompletedSteps(events[..c]);
            q < p < |done| && done[p] == events[i].payload.stepId && done[q] == events[j].payload.stepId
  {
    hide LegalFrom, CompletedSteps;
    CancelStopsForward(def, events, c, i);
    CancelStopsForward(def, events, c, j);
    CancelFreezesCompletions(def, events, c, i);
    CancelFreezesCompletions(def, events, c, j);
    p, q := CompensationsDescend(def, events, i, j);
  }
}
