/** What holds of a run whenever a command has committed, and that every way of ending a command restores it. */
module Settled {
  import opened Prelude
  import opened Workflow
  import opened History
  import opened Engine
  import opened Reducer
  import opened Invariant
  import opened Commands
  import opened Tracking

  predicate Lost(step: StepState) {
    step.forwardStatus == Some(TaskStatus.Failed) || step.forwardStatus == Some(TaskStatus.Cancelled)
  }

  /** Some step can never complete any more. */
  predicate AnyLost(s: Core) {
    exists x :: x in s.steps && Lost(s.steps[x])
  }

  predicate Open(s: Core, id: TaskId) {
    id in s.tasks && s.tasks[id].status.Open()
  }

  ghost predicate NoOpenTask(s: Core) {
    forall id :: !Open(s, id)
  }

  /** Every step whose dependencies have completed has been scheduled. */
  predicate ReadyScheduled(s: Core) {
    forall x :: x in s.steps && DependenciesCompleted(s.steps[x].definition, s.outputs)
      ==> s.steps[x].forwardTaskId.Some?
  }

  /** After a cancel request: no forward task is open, at most one compensation is, and the status says which. */
  ghost predicate CancelSettled(status: RunStatus, s: Core) {
    && (forall id :: Open(s, id) ==> s.tasks[id].phase.Compensation?)
    && (forall j, k :: Open(s, j) && Open(s, k) ==> j == k)
    && (status.Cancelled? || status.Compensating?)
    && (status.Cancelled? <==> NoOpenTask(s))
  }

  /** The invariant of committed states. */
  ghost predicate Committed(status: RunStatus, s: Core) {
    && !status.Cancelling?
    && (status.Completed? <==> AllCompleted(s))
    && (status.Running? || status.Completed? <==> !AnyLost(s))
    && (s.compensating || s.cancelRequested ==> AnyLost(s))
    && (status.Compensating? ==> s.compensating && HasOpen(s, Compensation))
    && (status.Failed? ==> !s.cancelRequested)
    && (status.Cancelled? ==> s.cancelRequested)
    && (!s.compensating && !s.cancelRequested ==> ReadyScheduled(s))
    && (s.compensating && NextCompensation(s).Some? ==> HasOpen(s, Compensation))
    && (s.cancelRequested ==> CancelSettled(status, s))
  }

  // ------------------------------------------------------------------ no deadlock

  /** The first step in rank order that has not completed is ready, so it has been scheduled and is open. */
  lemma {:induction false} FirstIncomplete(def: Definition, s: Core, ranking: seq<StepId>, n: nat) returns (x: StepId)
    requires Inv(def, s) && Ranks(def.steps, ranking) && n <= |ranking|
    requires exists i :: 0 <= i < n && ranking[i] !in s.outputs
    ensures x in s.steps && x !in s.outputs && DependenciesCompleted(def.steps[x], s.outputs)
  {
    hide StepOk, TaskOk, OrderOk;
    if i :| 0 <= i < n - 1 && ranking[i] !in s.outputs {
      x := FirstIncomplete(def, s, ranking, n - 1);
    } else {
      x := ranking[n - 1];
      forall k | 0 <= k < |def.steps[x].dependencies|
        ensures def.steps[x].dependencies[k] in s.outputs
      {
        assert Workflow.DependsOn(def.steps, ranking[n - 1], def.steps[x].dependencies[k]);
      }
    }
  }

  /** A committed run that is not terminal has an open task. */
  lemma NoDeadlock(def: Definition, status: RunStatus, s: Core)
    requires ValidDefinition(def) && Inv(def, s) && Committed(status, s) && !status.Terminal()
    ensures exists id :: Open(s, id)
  {
    if status.Running? {
      var id := RunningHasForward(def, status, s);
      assert Open(s, id);
    } else {
      var id :| id in s.tasks && s.tasks[id].phase == Compensation && s.tasks[id].status.Open();
      assert Open(s, id);
    }
  }

  lemma RunningHasForward(def: Definition, status: RunStatus, s: Core) returns (id: TaskId)
    requires ValidDefinition(def) && Inv(def, s) && Committed(status, s) && status.Running?
    ensures Open(s, id) && s.tasks[id].phase.Forward?
  {
    hide OrderOk, Ranks, NextCompensation, Filed, DependenciesKnown;
    var ranking :| Ranks(def.steps, ranking);
    var y :| y in s.steps && s.steps[y].forwardStatus != Some(TaskStatus.Completed);
    assert y !in s.outputs && y in ranking by { IncompleteIsRanked(def, s, ranking, y); }
    var i :| 0 <= i < |ranking| && ranking[i] == y;
    var x := FirstIncomplete(def, s, ranking, |ranking|);
    assert StepOk(def, s, x);
    id := s.steps[x].forwardTaskId.value;
    assert TaskOk(s, id);
    assert !Lost(s.steps[x]);
  }

  lemma IncompleteIsRanked(def: Definition, s: Core, ranking: seq<StepId>, y: StepId)
    requires Inv(def, s) && Ranks(def.steps, ranking)
    requires y in s.steps && s.steps[y].forwardStatus != Some(TaskStatus.Completed)
    ensures y !in s.outputs && y in ranking
  {
    hide OrderOk, DependenciesFirst;
    assert StepOk(def, s, y);
  }

  // ------------------------------------------------------------------ unwinding

  /** What must hold before the engine starts to unwind a run or finishes it. */
  ghost predicate Unwinding(s: Core) {
    && AnyLost(s)
    && (s.cancelRequested ==> NoOpenTask(s))
    && (!s.compensating && !s.cancelRequested ==> ReadyScheduled(s))
  }

  lemma LostIsNotCompleted(s: Core)
    requires AnyLost(s)
    ensures !AllCompleted(s)
  {
    var x :| x in s.steps && Lost(s.steps[x]);
  }

  /** Nothing is left to compensate: the run is failed or cancelled. */
  lemma FinishSettles(s: Core, s': Core, status: RunStatus)
    requires Unwinding(s) && NextCompensation(s).None? && s' == s.(finished := true)
    requires status == if s.cancelRequested then RunStatus.Cancelled else RunStatus.Failed
    ensures Committed(status, s')
  {
    LostIsNotCompleted(s);
    assert forall id :: Open(s', id) <==> Open(s, id);
    var x :| x in s.steps && Lost(s.steps[x]);
    assert Lost(s'.steps[x]);
  }

  /** One compensation has been scheduled. */
  predicate Scheduled(s: Core, s': Core, id: TaskId, x: StepId) {
    && id !in s.tasks && id in s'.tasks && x in s.steps && x in s'.steps
    && s'.tasks == s.tasks[id := s'.tasks[id]] && s'.steps == s.steps[x := s'.steps[x]]
    && s'.tasks[id].id == id && s'.tasks[id].stepId == x && s'.tasks[id].status.Available?
    && s'.outputs == s.outputs && s'.completedOrder == s.completedOrder
    && s'.cancelRequested == s.cancelRequested && s'.compensating == s.compensating
    && s'.steps[x].definition == s.steps[x].definition
    && (s'.tasks[id].phase.Compensation? ==>
          s'.steps[x] == s.steps[x].(compensationScheduled := true, compensationTaskId := Some(id)))
    && (s'.tasks[id].phase.Forward? ==>
          && s'.steps[x].forwardTaskId == Some(id) && s'.steps[x].forwardStatus == Some(Available)
          && s.steps[x].forwardTaskId.None?)
  }

  lemma CompensationSettles(s: Core, s': Core, id: TaskId, x: StepId, status: RunStatus)
    requires Scheduled(s, s', id, x) && s'.tasks[id].phase.Compensation?
    requires s.compensating && AnyLost(s) && (s.cancelRequested ==> NoOpenTask(s))
    requires status.Compensating? || (status.Failed? && !s.cancelRequested)
    ensures Committed(status, s')
  {
    hide NextCompensation;
    var y :| y in s.steps && Lost(s.steps[y]);
    assert Lost(s'.steps[y]);
    LostIsNotCompleted(s');
    assert HasOpen(s', Compensation);
    assert Open(s', id);
    assert forall k :: k != id ==> (Open(s', k) <==> Open(s, k));
  }

  // ------------------------------------------------------------------ the end of a task

  lemma OthersStayOpen(s: Core, s': Core, id: TaskId)
    requires Moves(s, s', id)
    ensures forall k :: k != id ==> (Open(s', k) <==> Open(s, k))
  {
  }

  /** A lost step stays lost when another task moves, and a moved forward task is lost if it failed or was cancelled. */
  lemma LossAfterMove(s: Core, s': Core, id: TaskId)
    requires Moves(s, s', id)
    requires s.tasks[id].phase.Forward? ==> s.steps[s.tasks[id].stepId].forwardStatus == Some(s.tasks[id].status)
    requires s.tasks[id].status.Open()
    ensures AnyLost(s) ==> AnyLost(s')
    ensures s.tasks[id].phase.Forward? && (s'.tasks[id].status.Failed? || s'.tasks[id].status.Cancelled?)
            ==> AnyLost(s')
    ensures AnyLost(s') ==>
              AnyLost(s) || (s.tasks[id].phase.Forward?
                && (s'.tasks[id].status.Failed? || s'.tasks[id].status.Cancelled?))
  {
    var x := s.tasks[id].stepId;
    if AnyLost(s) {
      var y :| y in s.steps && Lost(s.steps[y]);
      assert y == x ==> s.tasks[id].phase.Compensation?;
      assert Lost(s'.steps[y]);
    }
    if s.tasks[id].phase.Forward? && (s'.tasks[id].status.Failed? || s'.tasks[id].status.Cancelled?) {
      assert Lost(s'.steps[x]);
    }
    if AnyLost(s') {
      var y :| y in s'.steps && Lost(s'.steps[y]);
      assert y != x || s.tasks[id].phase.Compensation? ==> Lost(s.steps[y]);
    }
  }

  /** A task that can still move belongs to a run that is neither completed nor cancelled. */
  lemma OpenMeansUnfinished(def: Definition, status: RunStatus, s: Core, id: TaskId)
    requires Inv(def, s) && Committed(status, s) && Open(s, id)
    ensures !status.Completed? && !status.Cancelled?
    ensures s.tasks[id].phase.Compensation? ==> s.compensating
    ensures s.cancelRequested ==> s.compensating && status.Compensating? && s.tasks[id].phase.Compensation?
    ensures !s.compensating ==> status.Running? || status.Failed?
    ensures s.compensating ==> status.Compensating? || status.Failed?
  {
    hide OrderOk, NextCompensation;
    assert TaskOk(s, id);
    assert StepOk(def, s, s.tasks[id].stepId);
  }

  lemma OpenIsWanted(status: RunStatus, s: Core, id: TaskId)
    requires Committed(status, s) && Open(s, id)
    ensures StillWanted(s, id)
  {
    hide NextCompensation;
  }

  lemma ReadyScheduledAfterLoss(s: Core, s': Core, id: TaskId)
    requires Moves(s, s', id) && ReadyScheduled(s) && s'.outputs == s.outputs
    ensures ReadyScheduled(s')
  {
    hide DependenciesCompleted;
    forall x | x in s'.steps && DependenciesCompleted(s'.steps[x].definition, s'.outputs)
      ensures s'.steps[x].forwardTaskId.Some?
    {
      assert s'.steps[x].definition == s.steps[x].definition;
    }
  }

  /** A task has failed for good: the run may be unwound. */
  lemma FailureUnwinds(def: Definition, status: RunStatus, s: Core, s': Core, id: TaskId)
    requires Inv(def, s) && Committed(status, s) && Open(s, id) && Moves(s, s', id) && s'.tasks[id].status.Failed?
    ensures Unwinding(s')
  {
    OpenMeansUnfinished(def, status, s, id);
    assert TaskOk(s, id);
    hide Inv, NextCompensation;
    LossAfterMove(s, s', id);
    OthersStayOpen(s, s', id);
    if !s.compensating && !s.cancelRequested {
      ReadyScheduledAfterLoss(s, s', id) by { hide Committed; }
    }
  }

  /** A task has completed while the run is being unwound. */
  lemma CompletionUnwinds(def: Definition, status: RunStatus, s: Core, s': Core, id: TaskId)
    requires Inv(def, s) && Committed(status, s) && Open(s, id) && Moves(s, s', id) && s'.tasks[id].status.Completed?
    requires s.compensating
    ensures Unwinding(s')
    ensures status.Compensating? || (status.Failed? && !s'.cancelRequested)
  {
    OpenMeansUnfinished(def, status, s, id);
    assert TaskOk(s, id);
    hide Inv, NextCompensation;
    LossAfterMove(s, s', id);
    OthersStayOpen(s, s', id);
  }
}
