/** What every run of every reachable store satisfies. */
module Guarantees {
  import opened Prelude
  import opened Workflow
  import opened History
  import opened Engine
  import opened Reducer
  import opened Invariant
  import opened Chronicle
  import opened Commands
  import opened Tracking
  import opened Settled
  import opened CommandProofs
  import opened CancelProofs
  import opened Tables
  import opened Runs
  import opened System
  import opened Operations
  import opened Histories

  /** A run of a reachable store, its definition and the state its history replays to. */
  ghost predicate Reached(defs: Definitions, db: Db, r: RunId, def: Definition, v: View, s: Core) {
    && r in db.runs && db.runs[r].workflowName in defs && def == defs[db.runs[r].workflowName]
    && v == ViewOf(db, r) && s == StateOf(def, v.history)
    && ValidDefinition(def) && ViewOk(def, v) && v.run.id == r
  }

  lemma Reach(defs: Definitions, ops: seq<Op>, r: RunId) returns (def: Definition, v: View, s: Core)
    requires Registered(defs) && r in Exec(defs, ops).runs
    ensures Reached(defs, Exec(defs, ops), r, def, v, s)
  {
    hide RunOk, ViewOk, Exec, ValidDefinition, StateOf, HistoryOf, RowsOf;
    ReachableView(defs, ops, r);
    def := defs[Exec(defs, ops).runs[r].workflowName];
    v := ViewOf(Exec(defs, ops), r);
    s := StateOf(def, v.history);
  }

  lemma Facts(def: Definition, v: View)
    requires ViewOk(def, v)
    ensures var s := StateOf(def, v.history);
            && LegalFrom(InitialCore(def), v.history)
            && Replay(def, v.run, v.history).Ok? && Replay(def, v.run, v.history).value.core == s
            && Inv(def, s) && Committed(v.run.status, s) && RowsAgree(s.tasks, v.tasks, v.run.id)
            && SummaryMatches(v.run, Replay(def, v.run, v.history).value.run)
            && v.run.version == |v.history| && Numbered(v.history)
  {
    hide Inv, Committed, RowsAgree, LegalFrom, Replay, FoldCore;
    LegalHistory(def, v);
  }

  /** The histories that the store can hold are those the theorems on histories speak of. */
  lemma ReachableHistory(defs: Definitions, ops: seq<Op>, r: RunId)
    requires Registered(defs) && r in Exec(defs, ops).runs
    ensures var db := Exec(defs, ops);
            && db.runs[r].workflowName in defs
            && ValidDefinition(defs[db.runs[r].workflowName])
            && LegalFrom(InitialCore(defs[db.runs[r].workflowName]), HistoryOf(db.history, r))
  {
    hide Exec, ViewOk, StateOf, LegalFrom, ValidDefinition;
    var def, v, s := Reach(defs, ops, r);
    Facts(def, v);
  }

  // ------------------------------------------------------------------ the three views agree

  /** Sequence numbers are 1..n, the version is n, and replay never fails and gives back the stored summary. */
  lemma ReplayIsFixedPoint(defs: Definitions, ops: seq<Op>, r: RunId)
    requires Registered(defs) && r in Exec(defs, ops).runs
    ensures var db := Exec(defs, ops);
            && db.runs[r].workflowName in defs
            && var run, h := db.runs[r], HistoryOf(db.history, r);
            && (forall i :: 0 <= i < |h| ==> h[i].sequence == i + 1)
            && run.version == |h|
            && var replayed := Replay(defs[run.workflowName], run, h);
            && replayed.Ok?
            && replayed.value.run.status == run.status
            && replayed.value.run.output == run.output
            && replayed.value.run.cancelReason == run.cancelReason
  {
    hide Exec, ViewOk, StateOf, Replay;
    var def, v, s := Reach(defs, ops, r);
    Facts(def, v);
  }

  /** The task table holds exactly the replayed tasks, with the replayed columns. */
  lemma RowsAreReplay(defs: Definitions, ops: seq<Op>, r: RunId, id: TaskId)
    requires Registered(defs) && r in Exec(defs, ops).runs
    ensures var db := Exec(defs, ops);
            && db.runs[r].workflowName in defs
            && var s := StateOf(defs[db.runs[r].workflowName], HistoryOf(db.history, r));
            && (id in s.tasks <==> id in db.tasks && db.tasks[id].runId == r)
            && (id in s.tasks ==>
                  var t, row := s.tasks[id], db.tasks[id];
                  && row.stepId == t.stepId && row.kind == t.kind && row.phase == t.phase
                  && row.status == t.status && row.attempt == t.attempt && row.availableAt == t.availableAt
                       && row.lastError == t.error
                  && (t.status.Leased? ==> row.leaseOwner == t.leaseOwner && row.leaseExpiresAt == t.leaseExpiresAt)
                  && (!t.status.Leased? ==>
                        row.leaseOwner == "" && row.leaseExpiresAt == None && row.heartbeatAt == t.heartbeatAt))
  {
    hide Exec, ViewOk, StateOf;
    var def, v, s := Reach(defs, ops, r);
    Facts(def, v);
    hide Inv, Committed, Reached;
    assert RowsAgree(s.tasks, v.tasks, r);
    if id in s.tasks {
      assert RowAt(s.tasks, v.tasks, r, id);
    }
  }

  // ------------------------------------------------------------------ no deadlock

  predicate OpenRow(db: Db, r: RunId, id: TaskId) {
    id in db.tasks && db.tasks[id].runId == r && db.tasks[id].status.Open()
  }

  lemma OpenRowIsOpen(db: Db, r: RunId, s: Core, v: View, id: TaskId)
    requires r in db.runs && v == ViewOf(db, r) && RowsAgree(s.tasks, v.tasks, r)
    ensures OpenRow(db, r, id) <==> Open(s, id)
    ensures OpenRow(db, r, id)
            ==> db.tasks[id].phase == s.tasks[id].phase && id in v.tasks && v.tasks[id] == db.tasks[id]
  {
    if id in s.tasks { assert RowAt(s.tasks, v.tasks, r, id); }
  }

  /** A run that is not terminal has a task that is available or leased. */
  lemma NeverStuck(defs: Definitions, ops: seq<Op>, r: RunId)
    requires Registered(defs) && r in Exec(defs, ops).runs && !Exec(defs, ops).runs[r].status.Terminal()
    ensures exists id :: OpenRow(Exec(defs, ops), r, id)
  {
    hide Exec, ViewOk, StateOf, Inv, Committed, RowsAgree, ValidDefinition, Replay, LegalFrom, OpenRow, RowsOf;
    var def, v, s := Reach(defs, ops, r);
    Facts(def, v);
    NoDeadlock(def, v.run.status, s);
    var id :| Open(s, id);
    OpenRowIsOpen(Exec(defs, ops), r, s, v, id);
  }

  // ------------------------------------------------------------------ completion

  lemma CompletedStatus(def: Definition, status: RunStatus, s: Core)
    requires Inv(def, s) && Committed(status, s)
    ensures status.Completed? <==> forall x :: x in def.steps ==> x in s.outputs
    ensures status.Completed? ==> NoOpenTask(s) && forall x :: x in s.steps ==> !s.steps[x].compensationScheduled
    ensures status.Cancelled? ==> NoOpenTask(s)
  {
    hide NextCompensation, OrderOk;
    forall x | x in def.steps
      ensures x in s.outputs <==> s.steps[x].forwardStatus == Some(TaskStatus.Completed)
    {
      assert StepOk(def, s, x);
    }
    if status.Completed? {
      forall x | x in s.steps ensures !s.steps[x].compensationScheduled { assert StepOk(def, s, x); }
      forall id ensures !Open(s, id) {
        if id in s.tasks { assert TaskOk(s, id) && StepOk(def, s, s.tasks[id].stepId); }
      }
    }
  }

  /** A run is completed exactly when every step has completed, and then no compensation was ever scheduled. */
  lemma CompletedExactly(defs: Definitions, ops: seq<Op>, r: RunId)
    requires Registered(defs) && r in Exec(defs, ops).runs
    ensures var db := Exec(defs, ops);
            && db.runs[r].workflowName in defs
            && var h := HistoryOf(db.history, r);
            && (db.runs[r].status.Completed? <==>
                  forall x :: x in defs[db.runs[r].workflowName].steps ==> x in CompletedSteps(h))
            && (db.runs[r].status.Completed? ==> ScheduledSteps(h, true) == [])
  {
    hide Exec, ViewOk, StateOf, Inv, Committed, RowsAgree, ValidDefinition, Replay, LegalFrom, RowsOf, ScheduledSteps,
         CompletedSteps;
    var def, v, s := Reach(defs, ops, r);
    Facts(def, v);
    CompletedStatus(def, v.run.status, s);
    ReplayCompletes(def, v.history);
    CompletionOrder(def, v.history);
    if v.run.status.Completed? && ScheduledSteps(v.history, true) != [] {
      var x := ScheduledSteps(v.history, true)[0];
      ReplaySchedules(def, v.history, x, true);
    }
  }

  // ------------------------------------------------------------------ compensation

  lemma {:induction false} ReplayCompensates(def: Definition, events: seq<Event>)
    requires LegalFrom(InitialCore(def), events)
    ensures StateOf(def, events).compensating <==> exists i :: 0 <= i < |events| && events[i].payload.RunCompensating?
  {
    hide Inv, Legal, ApplyCore, StateOf, LegalFrom;
    if events == [] {
      StateOfEmpty(def);
    } else {
      var init := events[..|events| - 1];
      StateStep(def, events);
      ReplayCompensates(def, init);
      EventCompensates(StateOf(def, init), events[|events| - 1]);
      assert forall i :: 0 <= i < |init| ==> events[i] == init[i];
    }
  }

  lemma EventCompensates(s: Core, e: Event)
    requires ApplyCore(s, e).Ok?
    ensures ApplyCore(s, e).value.compensating <==> s.compensating || e.payload.RunCompensating?
  {
  }

  lemma Covered(def: Definition, status: RunStatus, s: Core, x: StepId)
    requires Inv(def, s) && Committed(status, s) && s.compensating
    requires x in s.completedOrder && x in def.steps && def.steps[x].compensation != ""
             && !s.steps[x].compensationScheduled
    ensures exists id :: Open(s, id) && s.tasks[id].phase.Compensation?
  {
    assert StepOk(def, s, x);
    assert Eligible(s.steps, x);
    hide Inv;
    assert NextCompensation(s).Some?;
    var id :| id in s.tasks && s.tasks[id].phase == Compensation && s.tasks[id].status.Open();
    assert Open(s, id);
  }

  /** While a run is being unwound, a completed step that still waits for its compensation has an open compensation
      ahead of it. */
  lemma CompensationCoverage(defs: Definitions, ops: seq<Op>, r: RunId, x: StepId)
    requires Registered(defs) && r in Exec(defs, ops).runs
    requires var db := Exec(defs, ops); var h := HistoryOf(db.history, r);
             && (exists i :: 0 <= i < |h| && h[i].payload.RunCompensating?)
             && x in CompletedSteps(h) && x !in ScheduledSteps(h, true)
             && db.runs[r].workflowName in defs && x in defs[db.runs[r].workflowName].steps
             && defs[db.runs[r].workflowName].steps[x].compensation != ""
    ensures exists id :: OpenRow(Exec(defs, ops), r, id) && Exec(defs, ops).tasks[id].phase.Compensation?
  {
    hide Exec, ViewOk, StateOf, Inv, Committed, RowsAgree, ValidDefinition, Replay, LegalFrom, RowsOf, ScheduledSteps,
         CompletedSteps, OpenRow;
    var def, v, s := Reach(defs, ops, r);
    Facts(def, v);
    ReplayCompletes(def, v.history);
    ReplayCompensates(def, v.history);
    ReplaySchedules(def, v.history, x, true);
    StepsAreDefined(def, s);
    Covered(def, v.run.status, s, x);
    var id :| Open(s, id) && s.tasks[id].phase.Compensation?;
    OpenRowIsOpen(Exec(defs, ops), r, s, v, id);
  }

  lemma StepsAreDefined(def: Definition, s: Core)
    requires Inv(def, s)
    ensures s.steps.Keys == def.steps.Keys
  {
  }

  /** Once cancelling has been asked for: only a compensation is open, at most one, and the status says whether. */
  lemma AfterCancel(defs: Definitions, ops: seq<Op>, r: RunId)
    requires Registered(defs) && r in Exec(defs, ops).runs
    requires CancelledBy(HistoryOf(Exec(defs, ops).history, r))
    ensures var db := Exec(defs, ops);
            && (forall id :: OpenRow(db, r, id) ==> db.tasks[id].phase.Compensation?)
            && (forall j, k :: OpenRow(db, r, j) && OpenRow(db, r, k) ==> j == k)
            && (db.runs[r].status.Cancelled? || db.runs[r].status.Compensating?)
            && (db.runs[r].status.Cancelled? <==> forall id :: !OpenRow(db, r, id))
  {
    hide Exec, ViewOk, StateOf, Inv, RowsAgree, ValidDefinition, Replay, LegalFrom, RowsOf, CancelledBy;
    var def, v, s := Reach(defs, ops, r);
    Facts(def, v);
    ReplayCancels(def, v.history);
    assert CancelSettled(v.run.status, s) by { hide NextCompensation; }
    hide Committed, Open;
    forall id ensures OpenRow(Exec(defs, ops), r, id) <==> Open(s, id)
    {
      OpenRowIsOpen(Exec(defs, ops), r, s, v, id);
    }
    forall id | OpenRow(Exec(defs, ops), r, id) ensures Exec(defs, ops).tasks[id].phase.Compensation? {
      OpenRowIsOpen(Exec(defs, ops), r, s, v, id);
    }
  }

  // ------------------------------------------------------------------ steps and their tasks

  /** A step that has been scheduled has one forward task, and says of it what the task says of itself. */
  lemma StepsMirrorTasks(defs: Definitions, ops: seq<Op>, r: RunId, x: StepId)
    requires Registered(defs) && r in Exec(defs, ops).runs
    ensures var db := Exec(defs, ops);
            && db.runs[r].workflowName in defs
            && var s := StateOf(defs[db.runs[r].workflowName], HistoryOf(db.history, r));
            (x in s.steps && s.steps[x].forwardTaskId.Some? ==>
               var step, id := s.steps[x], s.steps[x].forwardTaskId.value;
               && id in s.tasks && step.forwardStatus == Some(s.tasks[id].status)
                    && step.forwardAttempt == s.tasks[id].attempt
               && forall k :: k in s.tasks && s.tasks[k].stepId == x && s.tasks[k].phase.Forward? <==> k == id)
  {
    hide Exec, ViewOk, StateOf, Committed, RowsAgree, Replay, LegalFrom, ValidDefinition;
    var def, v, s := Reach(defs, ops, r);
    Facts(def, v);
    MirrorsTask(def, s, x);
  }

  lemma MirrorsTask(def: Definition, s: Core, x: StepId)
    requires Inv(def, s)
    ensures x in s.steps && s.steps[x].forwardTaskId.Some? ==>
              var step, id := s.steps[x], s.steps[x].forwardTaskId.value;
              && id in s.tasks && step.forwardStatus == Some(s.tasks[id].status)
                   && step.forwardAttempt == s.tasks[id].attempt
              && forall k :: k in s.tasks && s.tasks[k].stepId == x && s.tasks[k].phase.Forward? <==> k == id
  {
    if x in s.steps && s.steps[x].forwardTaskId.Some? {
      assert StepOk(def, s, x);
      hide OrderOk;
      assert TaskOk(s, s.steps[x].forwardTaskId.value);
      forall k | k in s.tasks && s.tasks[k].stepId == x && s.tasks[k].phase.Forward?
        ensures s.steps[x].forwardTaskId == Some(k)
      {
        assert TaskOk(s, k);
      }
    }
  }

  // ------------------------------------------------------------------ errors

  /** What a request needs in order not to be turned down. */
  predicate Acceptable(db: Db, req: Request) {
    match req
    case CancelRequest(run, _) => run in db.runs
    case FireRequest(task) => task in db.tasks
    case CompleteRequest(worker, task, _) =>
      task in db.tasks && db.tasks[task].status.Leased? && db.tasks[task].leaseOwner == worker
    case FailRequest(worker, task, _, _) =>
      task in db.tasks && db.tasks[task].status.Leased? && db.tasks[task].leaseOwner == worker
  }

  /** Of the loaded run only the lease can be missing: everything else a command needs is there. */
  lemma AcceptedExactly(env: Env, ld: Loaded, req: Request)
    requires LoadedOk(env, ld)
    requires !req.CancelRequest? ==> req.task in ld.state.core.tasks
    requires req.CompleteRequest? || req.FailRequest? ==> ld.state.core.tasks[req.task].kind.Activity?
    ensures !Execute(env, ld, req).Rejected? <==>
            (req.CompleteRequest? || req.FailRequest? ==>
               ld.state.core.tasks[req.task].status.Leased? && ld.state.core.tasks[req.task].leaseOwner == req.worker)
  {
    hide LoadedOk, CompleteWork, FailEvent, FinalFailureWork, RetryWork, CancelWork, FireWork, Final, Retries;
    match req
    case CompleteRequest(worker, id, output) =>
      if LeaseCheck(ld, worker, id).None? { CompleteWorkFinal(env, ld, worker, id, output); }
    case FailRequest(worker, id, error, retryable) =>
      if LeaseCheck(ld, worker, id).None? {
        FinalFailureFinal(env, ld, worker, id, error);
        if Retries(ld, id, ld.state.core.cancelRequested, retryable) {
          RetriesIfRetryable(ld, id, retryable);
          RetryFinal(env, ld, worker, id, error);
        }
      }
    case FireRequest(id) =>
      if TimerDue(ld, id, env.now) { FireWorkFinal(env, ld, id); }
    case CancelRequest(_, reason) =>
      if !ld.run.status.Terminal() { CancelWorkFinal(env, ld, reason); }
  }

  /** A command on a reachable store succeeds exactly if its run or task exists and, for a worker, its lease is held. */
  lemma CommandSucceedsExactly(defs: Definitions, ops: seq<Op>, req: Request, listing: seq<TaskId>, now: Time,
                               uuid: nat -> TaskId)
    requires Registered(defs) && Enabled(Exec(defs, ops), req, listing, uuid)
    ensures Command(defs, Exec(defs, ops), req, listing, now, uuid).Ok? <==> Acceptable(Exec(defs, ops), req)
  {
    hide Exec, Registered, DbOk, NewIds, Lists, Execute, LoadFrom, LoadedOk, Continues, RowsOf;
    var db := Exec(defs, ops);
    ReachableOk(defs, ops);
    if Locate(db, req).Ok? && !req.CancelRequest? { RunOfTask(defs, db, req.task); }
    if Locate(db, req).Ok? && Locate(db, req).value in db.runs {
      var ld, w := CommandCommits(defs, db, req, listing, now, uuid);
      var env := Env(Locate(db, req).value, now, uuid);
      LoadedTasks(defs, db, env.runId, listing);
      hide Command, Load;
      if !req.CancelRequest? { LoadedTask(env, db, ld, req.task); }
      AcceptedExactly(env, ld, req);
    }
  }

  lemma LoadedTask(env: Env, db: Db, ld: Loaded, id: TaskId)
    requires LoadedOk(env, ld) && ld.tasks == RowsOf(db.tasks, env.runId) && id in db.tasks
             && db.tasks[id].runId == env.runId
    ensures id in ld.state.core.tasks
    ensures var t, row := ld.state.core.tasks[id], db.tasks[id];
            t.kind == row.kind && t.status == row.status && (t.status.Leased? ==> t.leaseOwner == row.leaseOwner)
  {
    hide Inv, Committed, Fresh, ValidDefinition;
    assert RowAt(ld.state.core.tasks, ld.tasks, env.runId, id);
  }
}
