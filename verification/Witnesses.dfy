/** Runs in which claims that do not hold in general fail. */
module Witnesses {
  import opened Prelude
  import opened Workflow
  import opened History
  import opened Engine
  import opened Reducer
  import opened Invariant
  import opened Chronicle
  import opened Commands
  import opened Tracking
  import opened Settled
  import opened CommandProofs
  import opened CancelProofs
  import opened Tables
  import opened Runs
  import opened System
  import opened Operations
  import opened Histories
  import opened Guarantees
  import opened Overlap
  import opened FailureText
  import opened Steps
  import opened Failed
  import opened Rest
  import opened Leases
  import opened Recovery
  import opened Effects

  // ------------------------------------------------------------------ a workflow of four independent steps

  function WitnessStep(id: StepId, compensation: string): Step {
    Step(id, Activity, "work", "default", 0, [], RetryPolicy(1, SECOND, SECOND), compensation, "")
  }

  function WitnessDefinition(): Definition {
    Definition("witness",
               map["a" := WitnessStep("a", "undo"), "b" := WitnessStep("b", "undo"), "c" := WitnessStep("c", ""),
                   "d" := WitnessStep("d", "")],
               ["a", "b", "c", "d"])
  }

  function WitnessRegistry(): Definitions {
    map["witness" := WitnessDefinition()]
  }

  lemma WitnessOrder()
    ensures Filed(WitnessDefinition().steps, WitnessDefinition().order)
  {
    var def := WitnessDefinition();
    assert NoDup(def.order);
    assert forall x {:trigger x in def.steps} :: x in def.order <==> x in def.steps;
  }

  lemma WitnessIsValid()
    ensures ValidDefinition(WitnessDefinition())
  {
    WitnessOrder();
    WitnessSteps();
    var def := WitnessDefinition();
    assert def.order[0] == "a";
    assert forall x :: x in def.steps ==> def.steps[x].retry.maxAttempts == 1 by { OneAttempt(); }
    hide WitnessDefinition;
    assert DependenciesFirst(def.steps, def.order);
    assert Ranks(def.steps, def.order);
  }

  lemma OneAttempt()
    ensures var steps := WitnessDefinition().steps; forall x :: x in steps ==> steps[x].retry.maxAttempts == 1
  {
  }

  lemma WitnessRegistered()
    ensures Registered(WitnessRegistry())
  {
    WitnessIsValid();
    hide ValidDefinition;
  }

  lemma WitnessSteps()
    ensures var steps := WitnessDefinition().steps;
            && steps.Keys == {"a", "b", "c", "d"}
            && (forall x :: x in steps ==> steps[x].kind.Activity? && steps[x].dependencies == [])
            && steps["a"].compensation != "" && steps["b"].compensation != ""
  {
  }

  // ------------------------------------------------------------------ one more operation

  /** What a submitted request does to a run: the state it loads is the replayed one, and so is the state it leaves. */
  lemma AfterSubmission(defs: Definitions, ops: seq<Op>, op: Op) returns (env: Env, ld: Loaded)
    requires Registered(defs) && op.Submit? && Allowed(Exec(defs, ops), op)
    requires Locate(Exec(defs, ops), op.req).Ok? && Locate(Exec(defs, ops), op.req).value in Exec(defs, ops).runs
    ensures var db, r := Exec(defs, ops), Locate(Exec(defs, ops), op.req).value;
            && env == Env(r, op.now, op.uuid) && LoadedOk(env, ld)
            && ld.tasks == RowsOf(db.tasks, r) && ld.run == db.runs[r] && ld.events == HistoryOf(db.history, r)
            && db.runs[r].workflowName in defs && ld.def == defs[db.runs[r].workflowName]
            && ld.state.core == StateOf(ld.def, ld.events) && Replay(ld.def, ld.run, ld.events) == Ok(ld.state)
    ensures var r := Locate(Exec(defs, ops), op.req).value;
            Execute(env, ld, op.req).Append? ==>
              var o, db' := Execute(env, ld, op.req), Exec(defs, ops + [op]);
              && r in db'.runs && db'.runs[r].workflowName == ld.run.workflowName
              && HistoryOf(db'.history, r) == ld.events + o.events
              && FoldCore(ld.state.core, o.events) == Ok(StateOf(ld.def, ld.events + o.events))
              && db'.runs[r].status == o.run.status && db'.runs[r].failure == o.run.failure
  {
    hide Exec, Registered, DbOk, Enabled, Execute, LoadFrom, RowsOf, LoadedOk, Continues, StateOf, Perform, FoldCore,
         Replay, ViewOk, ValidDefinition, LegalFrom, HistoryOf;
    var db := Exec(defs, ops);
    ReachableOk(defs, ops);
    env := Env(Locate(db, op.req).value, op.now, op.uuid);
    var w;
    ld, w := CommandCommits(defs, db, op.req, op.listing, op.now, op.uuid);
    LoadedParts(defs, db, env.runId, op.listing);
    var def, v, s := Reach(defs, ops, env.runId);
    LegalHistory(def, v);
    assert ld.state.core == StateOf(def, v.history) by { ReplayedState(def, v); }
    if Execute(env, ld, op.req).Append? {
      hide Load, Write, Command;
      ExecSnoc(defs, ops, op);
      Performed(defs, db, op);
      ContinuedState(defs, db, Exec(defs, ops + [op]), env, ld, Execute(env, ld, op.req), w);
    }
  }

  lemma ReplayedState(def: Definition, v: View)
    requires Replay(def, v.run, v.history).Ok? && FoldCore(InitialCore(def), v.history).Ok?
    requires Replay(def, v.run, v.history).value.core == FoldCore(InitialCore(def), v.history).value
    ensures Replay(def, v.run, v.history).value.core == StateOf(def, v.history)
  {
    hide FoldCore, Fold;
  }

  lemma Performed(defs: Definitions, db: Db, op: Op)
    requires op.Submit? && Allowed(db, op) && Command(defs, db, op.req, op.listing, op.now, op.uuid).Ok?
    ensures Next(defs, db, op) == Command(defs, db, op.req, op.listing, op.now, op.uuid).value
  {
    hide Command, Allowed;
  }

  lemma ContinuedState(defs: Definitions, db: Db, db': Db, env: Env, ld: Loaded, o: Outcome, w: Work)
    requires Continues(defs, db, db', env, ld, o, w)
    requires ld.events == HistoryOf(db.history, env.runId) && ld.run == db.runs[env.runId]
    requires ld.state.core == StateOf(ld.def, ld.events) && FoldCore(InitialCore(ld.def), ld.events).Ok?
    ensures env.runId in db'.runs && db'.runs[env.runId].workflowName == ld.run.workflowName
    ensures HistoryOf(db'.history, env.runId) == ld.events + o.events
    ensures FoldCore(ld.state.core, o.events) == Ok(StateOf(ld.def, ld.events + o.events))
    ensures db'.runs[env.runId].status == o.run.status && db'.runs[env.runId].failure == o.run.failure
  {
    FoldCoreConcat(InitialCore(ld.def), ld.events, o.events);
    FinalCore(BaseOf(ld), env, w) by { hide Final, Advances, ViewOf, FoldCore; }
    hide Final, FoldCore, InitialCore, RowsOf, Mutated, Frames, RunOk, HasWork;
  }

  // ------------------------------------------------------------------ where the run stands

  const WORKER := "worker"
  const STEPS: set<StepId> := {"a", "b", "c", "d"}

  predicate RowIs(db: Db, id: TaskId, x: StepId, status: TaskStatus) {
    && id in db.tasks && db.tasks[id].runId == 0 && db.tasks[id].stepId == x && db.tasks[id].phase.Forward?
    && db.tasks[id].kind.Activity? && db.tasks[id].status == status
         && (status.Leased? ==> db.tasks[id].leaseOwner == WORKER)
  }

  predicate TaskIs(s: Core, id: TaskId, x: StepId, status: TaskStatus) {
    && id in s.tasks && s.tasks[id].stepId == x && s.tasks[id].phase.Forward?
    && s.tasks[id].kind.Activity? && s.tasks[id].status == status
         && (status.Leased? ==> s.tasks[id].leaseOwner == WORKER)
  }

  lemma RowIffTask(db: Db, s: Core, id: TaskId, x: StepId, status: TaskStatus)
    requires RowsAgree(s.tasks, RowsOf(db.tasks, 0), 0)
    ensures RowIs(db, id, x, status) <==> TaskIs(s, id, x, status)
  {
    if id in s.tasks { assert RowAt(s.tasks, RowsOf(db.tasks, 0), 0, id); }
  }

  /** Run 0 is one of the witness workflow, and the tasks of its steps have these statuses. */
  ghost predicate Stands(ops: seq<Op>, ids: map<StepId, TaskId>, st: map<StepId, TaskStatus>) {
    var db := Exec(WitnessRegistry(), ops);
    && 0 in db.runs && db.runs[0].workflowName == "witness"
    && ids.Keys == STEPS && st.Keys == STEPS
    && forall x {:trigger ids[x]} :: x in STEPS ==> RowIs(db, ids[x], x, st[x])
  }

  /** What replay says of the four tasks and their steps. */
  ghost predicate Shows(s: Core, ids: map<StepId, TaskId>, st: map<StepId, TaskStatus>) {
    && ids.Keys == STEPS && st.Keys == STEPS && s.steps.Keys == STEPS
    && (forall x {:trigger ids[x]} :: x in STEPS ==> TaskIs(s, ids[x], x, st[x]))
    && (forall x {:trigger s.steps[x]} :: x in STEPS ==>
          s.steps[x].forwardStatus == Some(st[x]) && (x in s.outputs <==> st[x].Completed?))
  }

  lemma ShownSteps(def: Definition, s: Core, ids: map<StepId, TaskId>, st: map<StepId, TaskStatus>)
    requires Inv(def, s) && def.steps.Keys == STEPS && ids.Keys == STEPS && st.Keys == STEPS
    requires forall x {:trigger ids[x]} :: x in STEPS ==> TaskIs(s, ids[x], x, st[x])
    ensures Shows(s, ids, st)
  {
    hide OrderOk;
    forall x | x in STEPS ensures s.steps[x].forwardStatus == Some(st[x]) && (x in s.outputs <==> st[x].Completed?) {
      assert TaskIs(s, ids[x], x, st[x]);
      assert TaskOk(s, ids[x]) && StepOk(def, s, x);
    }
  }

  lemma StandingState(ops: seq<Op>, ids: map<StepId, TaskId>, st: map<StepId, TaskStatus>) returns (s: Core)
    requires Stands(ops, ids, st)
    ensures var db := Exec(WitnessRegistry(), ops);
            && s == StateOf(WitnessDefinition(), HistoryOf(db.history, 0))
            && Shows(s, ids, st) && Inv(WitnessDefinition(), s) && Committed(db.runs[0].status, s)
            && RowsAgree(s.tasks, RowsOf(db.tasks, 0), 0)
  {
    WitnessRegistered();
    WitnessSteps();
    hide Exec, ViewOk, StateOf, Inv, Committed, RowsAgree, Replay, LegalFrom, ValidDefinition, RowsOf, HistoryOf,
         WitnessDefinition;
    var def, v, s' := Reach(WitnessRegistry(), ops, 0);
    s := s';
    Facts(def, v);
    forall x {:trigger ids[x]} | x in STEPS ensures TaskIs(s, ids[x], x, st[x]) {
      RowIffTask(Exec(WitnessRegistry(), ops), s, ids[x], x, st[x]);
    }
    ShownSteps(def, s, ids, st);
  }

  /** No step is lost, so the run goes forward. */
  lemma GoesOn(s: Core, status: RunStatus, ids: map<StepId, TaskId>, st: map<StepId, TaskStatus>)
    requires Shows(s, ids, st) && Committed(status, s)
    requires forall x {:trigger st[x]} :: x in STEPS ==> !st[x].Failed? && !st[x].Cancelled?
    ensures !AnyLost(s) && !s.compensating && !s.cancelRequested
  {
    hide NextCompensation;
    forall x | x in s.steps ensures !Lost(s.steps[x]) {
      assert s.steps[x].forwardStatus == Some(st[x]);
    }
  }

  /** One task has ended; the rows of the others say what they said. */
  lemma StandsAfter(ops: seq<Op>, ids: map<StepId, TaskId>, st: map<StepId, TaskStatus>, s: Core, ops': seq<Op>,
                    x: StepId, status: TaskStatus)
    requires Shows(s, ids, st) && x in STEPS && !status.Leased?
    requires 0 in Exec(WitnessRegistry(), ops').runs && Exec(WitnessRegistry(), ops').runs[0].workflowName == "witness"
    requires OnlyEnded(s, CoreAfter(ops'), ids[x], status)
    ensures Stands(ops', ids, st[x := status])
  {
    WitnessRegistered();
    hide Exec, ViewOk, StateOf, Inv, Committed, RowsAgree, Replay, LegalFrom, ValidDefinition, RowsOf, HistoryOf,
         WitnessDefinition;
    var def, v, s' := Reach(WitnessRegistry(), ops', 0);
    Facts(def, v);
    EndedTasks(s, s', ids, st, x, status);
    hide OnlyEnded, Shows, Stands;
    StandsFrom(ops', ids, st[x := status], s');
  }

  lemma StandsFrom(ops: seq<Op>, ids: map<StepId, TaskId>, st: map<StepId, TaskStatus>, s: Core)
    requires var db := Exec(WitnessRegistry(), ops);
             0 in db.runs && db.runs[0].workflowName == "witness" && RowsAgree(s.tasks, RowsOf(db.tasks, 0), 0)
    requires ids.Keys == STEPS && st.Keys == STEPS
    requires forall x {:trigger ids[x]} :: x in STEPS ==> TaskIs(s, ids[x], x, st[x])
    ensures Stands(ops, ids, st)
  {
    hide Exec, TaskIs, RowIs, RowsAgree, RowsOf, WitnessRegistry;
    forall x {:trigger ids[x]} | x in STEPS ensures RowIs(Exec(WitnessRegistry(), ops), ids[x], x, st[x]) {
      assert TaskIs(s, ids[x], x, st[x]);
      RowIffTask(Exec(WitnessRegistry(), ops), s, ids[x], x, st[x]);
    }
  }

  lemma EndedTasks(s: Core, s': Core, ids: map<StepId, TaskId>, st: map<StepId, TaskStatus>, x: StepId,
                   status: TaskStatus)
    requires Shows(s, ids, st) && x in STEPS && !status.Leased? && OnlyEnded(s, s', ids[x], status)
    ensures ids.Keys == STEPS && forall y {:trigger ids[y]} :: y in STEPS ==> TaskIs(s', ids[y], y, st[x := status][y])
  {
    forall y {:trigger ids[y]} | y in STEPS ensures TaskIs(s', ids[y], y, st[x := status][y]) {
      assert TaskIs(s, ids[y], y, st[y]) && TaskIs(s, ids[x], x, st[x]);
      assert y != x ==> ids[y] != ids[x];
    }
  }

  // ------------------------------------------------------------------ the operations

  lemma WorksOn(s: Core, ids: map<StepId, TaskId>, st: map<StepId, TaskStatus>, x: StepId)
    requires Shows(s, ids, st) && x in STEPS && st[x].Leased?
    ensures ids[x] in s.tasks && s.tasks[ids[x]].kind.Activity? && s.tasks[ids[x]].status.Leased?
            && s.tasks[ids[x]].leaseOwner == WORKER
    ensures s.tasks[ids[x]].phase.Forward? && s.tasks[ids[x]].stepId == x
  {
    assert TaskIs(s, ids[x], x, st[x]);
  }

  lemma HeldRow(ops: seq<Op>, ids: map<StepId, TaskId>, st: map<StepId, TaskStatus>, x: StepId)
    requires Stands(ops, ids, st) && x in STEPS
    ensures x in ids && x in st
    ensures var db := Exec(WitnessRegistry(), ops);
            0 in db.runs && db.runs[0].workflowName == "witness" && RowIs(db, ids[x], x, st[x])
  {
    hide RowIs;
  }

  ghost function CoreAfter(ops: seq<Op>): Core {
    StateOf(WitnessDefinition(), HistoryOf(Exec(WitnessRegistry(), ops).history, 0))
  }

  /** The outcome has been committed to run 0. */
  ghost predicate LeavesBehind(ops: seq<Op>, ld: Loaded, o: Outcome)
    requires o.Append?
  {
    var db := Exec(WitnessRegistry(), ops);
    && 0 in db.runs && db.runs[0].workflowName == "witness" && db.runs[0].status == o.run.status
    && FoldCore(ld.state.core, o.events) == Ok(CoreAfter(ops))
  }

  /** What a worker reports of a task it holds: what the engine loads, and what it leaves behind. */
  lemma Reported(ops: seq<Op>, ids: map<StepId, TaskId>, st: map<StepId, TaskStatus>, x: StepId, req: Request)
    returns (op: Op, env: Env, ld: Loaded)
    requires Stands(ops, ids, st) && x in STEPS && st[x].Leased?
    requires (req.CompleteRequest? || req.FailRequest?) && req.task == ids[x]
    ensures op.Submit? && op.req == req
    ensures LoadedOk(env, ld) && ld.state.core == CoreAfter(ops) && Shows(ld.state.core, ids, st)
    ensures ids[x] in ld.state.core.tasks
    ensures var t := ld.state.core.tasks[ids[x]];
            t.kind.Activity? && t.status.Leased? && t.leaseOwner == WORKER && t.phase.Forward?
    ensures Execute(env, ld, req).Append? ==> LeavesBehind(ops + [op], ld, Execute(env, ld, req))
  {
    WitnessRegistered();
    var db := Exec(WitnessRegistry(), ops);
    HeldRow(ops, ids, st, x);
    assert Locate(db, req) == Ok(0) && Admissible(db, req) by { hide Exec, WitnessRegistry; }
    var s := StandingState(ops, ids, st);
    hide Stands, Exec, Registered, Locate, Allowed, LoadedOk, Execute, StateOf, Committed, RowsAgree, Inv, RowsOf,
         Replay, FoldCore, HistoryOf, Admissible, RowIs;
    op := Submission(db, req, 0);
    env, ld := AfterSubmission(WitnessRegistry(), ops, op);
    WorksOn(s, ids, st, x);
    hide Shows, WitnessDefinition;
  }

  /** One of the tasks completes in a run that goes forward. */
  lemma CompleteWitness(ops: seq<Op>, ids: map<StepId, TaskId>, st: map<StepId, TaskStatus>, x: StepId) returns (op: Op)
    requires Stands(ops, ids, st) && x in STEPS && st[x].Leased?
    requires !CoreAfter(ops).compensating && !CoreAfter(ops).cancelRequested
    ensures Stands(ops + [op], ids, st[x := TaskStatus.Completed]) && HeadsForward(CoreAfter(ops + [op]))
  {
    assert x in ids;
    hide Stands, Shows, Exec, Execute, LoadedOk, CoreAfter, FoldCore, OnlyEnded;
    var env, ld;
    op, env, ld := Reported(ops, ids, st, x, CompleteRequest(WORKER, ids[x], Null));
    CompletedAppends(env, ld, ids[x]);
    StandsAfter(ops, ids, st, ld.state.core, ops + [op], x, TaskStatus.Completed);
  }

  lemma CompletedAppends(env: Env, ld: Loaded, id: TaskId)
    requires LoadedOk(env, ld) && id in ld.state.core.tasks && !ld.state.core.compensating
             && !ld.state.core.cancelRequested
    requires var t := ld.state.core.tasks[id]; t.kind.Activity? && t.status.Leased? && t.leaseOwner == WORKER
    ensures Execute(env, ld, CompleteRequest(WORKER, id, Null)).Append?
    ensures FoldCore(ld.state.core, Execute(env, ld, CompleteRequest(WORKER, id, Null)).events).Ok?
    ensures OnlyEnded(ld.state.core, FoldCore(ld.state.core,
                                              Execute(env, ld, CompleteRequest(WORKER, id, Null)).events).value,
                      id, TaskStatus.Completed)
    ensures HeadsForward(FoldCore(ld.state.core, Execute(env, ld, CompleteRequest(WORKER, id, Null)).events).value)
  {
    hide LoadedOk, CompleteWork, Final, OnlyEnded, FoldCore;
    CompleteWorkFinal(env, ld, WORKER, id, Null);
    CompleteKeepsTasks(env, ld, WORKER, id, Null);
    FinalCore(BaseOf(ld), env, CompleteWork(env, ld, WORKER, id, Null).value);
  }

  /** In a new run every scheduled step has an available task. */
  lemma StartedAvailable(env: Env, def: Definition, input: Json)
    requires ValidDefinition(def) && Fresh(env, map[], 2) && StartWork(env, def, input).Ok?
    ensures var s := StartWork(env, def, input).value.state.core;
            forall x {:trigger s.steps[x]} :: x in s.steps && s.steps[x].forwardTaskId.Some?
              ==> s.steps[x].forwardStatus == Some(Available)
  {
    var run := NewRun(env, def.name, NormalizeJson(input));
    var b := Base(def, Initial(def, run), 0, map[]);
    var w := StartedGood(env, def, NormalizeJson(input)) by { hide Fresh, ValidDefinition; }
    assert Filed(def.steps, def.order);
    assert forall i :: 0 <= i < |def.order| ==> def.order[i] in w.state.core.steps;
    assert forall x {:trigger w.state.core.steps[x]} ::
        x in w.state.core.steps ==> w.state.core.steps[x].forwardTaskId.None?;
    hide Good, Fresh, ScheduleForwardReady, ScheduledAmong;
    ReadyStepsGood(b, env, w, def.order);
  }

  lemma StartedTasks(def: Definition, s: Core, status: RunStatus) returns (ids: map<StepId, TaskId>)
    requires Inv(def, s) && Committed(status, s) && status.Running? && s.steps.Keys == STEPS
    requires forall x :: x in def.steps ==> def.steps[x].kind.Activity? && def.steps[x].dependencies == []
    requires forall x {:trigger s.steps[x]} ::
               x in s.steps && s.steps[x].forwardTaskId.Some? ==> s.steps[x].forwardStatus == Some(Available)
    ensures ids.Keys == STEPS && forall x {:trigger ids[x]} :: x in STEPS ==> TaskIs(s, ids[x], x, Available)
  {
    hide OrderOk, NextCompensation;
    assert !s.compensating && !s.cancelRequested;
    forall x | x in STEPS ensures s.steps[x].forwardTaskId.Some? {
      assert StepOk(def, s, x);
    }
    ids := map x | x in STEPS :: s.steps[x].forwardTaskId.value;
    forall x {:trigger ids[x]} | x in STEPS ensures TaskIs(s, ids[x], x, Available) {
      assert StepOk(def, s, x);
      assert TaskOk(s, ids[x]);
    }
  }

  const ALL_AVAILABLE: map<StepId, TaskStatus> := map["a" := Available, "b" := Available, "c" := Available,
                                                      "d" := Available]

  lemma LaunchWitness(uuid: nat -> TaskId) returns (w: Work, ids: map<StepId, TaskId>)
    requires NewIds(EMPTY, uuid)
    ensures Launch(WitnessRegistry(), EMPTY, 0, "witness", Null, 0, uuid).Ok?
    ensures var db := Launch(WitnessRegistry(), EMPTY, 0, "witness", Null, 0, uuid).value;
            && 0 in db.runs && db.runs[0].workflowName == "witness"
            && RowsAgree(w.state.core.tasks, RowsOf(db.tasks, 0), 0)
    ensures ids.Keys == STEPS && forall x {:trigger ids[x]} :: x in STEPS ==> TaskIs(w.state.core, ids[x], x, Available)
  {
    WitnessRegistered();
    WitnessIsValid();
    WitnessSteps();
    EmptyOk(WitnessRegistry());
    var env, def := Env(0, 0, uuid), WitnessDefinition();
    assert WitnessRegistry()["witness"] == def && def.name == "witness";
    hide WitnessDefinition, WitnessRegistry, StateOf, Inv, Committed, RowsAgree, Replay, LegalFrom, ValidDefinition,
         RowsOf, HistoryOf, Registered,
         DbOk, ViewOk, NewIds, Launch, StartWork, Mutated, Frames, Fresh, TaskIs;
    w := LaunchAdds(WitnessRegistry(), EMPTY, 0, "witness", Null, 0, uuid);
    FreshStart(EMPTY, env);
    StartedAvailable(env, def, Null);
    var v := View(StartedRow(env, def, Null, w), w.events, Mutated(map[], w.mutations));
    Facts(def, v);
    StartedState(env, def, Null, w);
    StepsAreDefined(def, w.state.core);
    ids := StartedTasks(def, w.state.core, v.run.status);
  }

  lemma StartWitness() returns (op: Op, ids: map<StepId, TaskId>)
    ensures Stands([op], ids, ALL_AVAILABLE)
  {
    var uuid := FreshIds(EMPTY);
    op := Start(0, "witness", Null, 0, uuid);
    assert Allowed(EMPTY, op);
    hide WitnessRegistry, RowsAgree, RowsOf, Launch, TaskIs, RowIs, NewIds, Exec, Allowed;
    var w;
    w, ids := LaunchWitness(uuid);
    FirstOperation(WitnessRegistry(), op);
    hide Stands;
    StandsFrom([op], ids, ALL_AVAILABLE, w.state.core);
  }

  lemma FirstOperation(defs: Definitions, op: Op)
    requires Allowed(EMPTY, op) && Perform(defs, EMPTY, op).Ok?
    ensures Exec(defs, [op]) == Perform(defs, EMPTY, op).value
  {
    hide Perform, Allowed;
    assert [op][..0] == [];
    assert Exec(defs, []) == EMPTY;
  }

  lemma StartedState(env: Env, def: Definition, input: Json, w: Work)
    requires ValidDefinition(def) && Fresh(env, map[], 2) && StartWork(env, def, input) == Ok(w)
    ensures StateOf(def, w.events) == w.state.core
  {
    hide ValidDefinition, Fresh, Final, StartWork, FoldCore;
    StartWorkFinal(env, def, input);
    var b := Base(def, Initial(def, NewRun(env, def.name, NormalizeJson(input))), 0, map[]);
    FinalCore(b, env, w);
  }

  /** One of the tasks is taken up. */
  lemma LeaseWitness(ops: seq<Op>, ids: map<StepId, TaskId>, st: map<StepId, TaskStatus>, x: StepId) returns (op: Op)
    requires Stands(ops, ids, st) && x in STEPS && st[x].Available?
    ensures Stands(ops + [op], ids, st[x := Leased])
  {
    HeldRow(ops, ids, st, x);
    WitnessRegistered();
    hide Stands, Exec, Registered, WitnessRegistry;
    op := LeaseAvailable(WitnessRegistry(), ops, ids[x]);
    LeasedStands(ops, ids, st, x, op);
  }

  lemma LeaseAvailable(defs: Definitions, ops: seq<Op>, id: TaskId) returns (op: Op)
    requires Registered(defs) && id in Exec(defs, ops).tasks
    requires var row := Exec(defs, ops).tasks[id]; row.status.Available? && row.kind.Activity?
    ensures op.Lease? && HasLeased(Exec(defs, ops), Exec(defs, ops + [op]), id, op.now)
  {
    hide Exec, Registered, DbOk, Next, HasLeased;
    var db := Exec(defs, ops);
    op := Lease(db.tasks[id].queue, WORKER, 1, [id], 1, db.tasks[id].availableAt);
    ReachableOk(defs, ops);
    LeaseIsAllowed(db, op, id);
    NextLeases(defs, db, op, id);
    ExecSnoc(defs, ops, op);
  }

  /** The row of task `id` has been leased, and its run is still the same workflow's. */
  predicate HasLeased(db: Db, db': Db, id: TaskId, now: Time) {
    && id in db.tasks && db'.tasks == db.tasks[id := LeasedRow(db.tasks[id], WORKER, now + 1, now)]
    && var r := db.tasks[id].runId;
    r in db.runs && r in db'.runs && db'.runs[r].workflowName == db.runs[r].workflowName
  }

  lemma NextLeases(defs: Definitions, db: Db, op: Op, id: TaskId)
    requires DbOk(defs, db) && Allowed(db, op) && id in db.tasks && db.tasks[id].status.Available?
             && db.tasks[id].kind.Activity?
    requires op.Lease? && op.ids == [id] && op.worker == WORKER && op.ttl == 1
             && db.tasks[id].availableAt < op.now + SECOND
    ensures HasLeased(db, Next(defs, db, op), id, op.now)
  {
    hide DbOk, Advances, RowsOf, LeaseOne, HistoryOf, Allowed;
    LeaseOneAdvances(defs, db, id, WORKER, 1, op.now);
    LeaseOfOne(db, id, WORKER, 1, op.now);
    hide LeaseTasks;
    LeasePerformed(defs, db, op);
  }

  lemma LeasePerformed(defs: Definitions, db: Db, op: Op)
    requires op.Lease? && Allowed(db, op) && LeaseTasks(db, op.ids, op.worker, op.ttl, op.now).Ok?
    ensures Next(defs, db, op) == LeaseTasks(db, op.ids, op.worker, op.ttl, op.now).value
  {
    hide Allowed, LeaseTasks;
  }

  lemma LeaseIsAllowed(db: Db, op: Op, id: TaskId)
    requires id in db.tasks && db.tasks[id].status.Available? && db.tasks[id].kind.Activity?
    requires op.Lease? && op.queue == db.tasks[id].queue && op.ids == [id] && op.limit == 1
             && op.now == db.tasks[id].availableAt
    ensures Allowed(db, op)
  {
    assert SECOND == 1_000_000_000;
  }

  lemma LeaseOfOne(db: Db, id: TaskId, worker: string, ttl: int, now: Time)
    ensures LeaseTasks(db, [id], worker, ttl, now) == LeaseOne(db, id, worker, ttl, now)
  {
    hide LeaseOne;
    assert [id][..0] == [];
    assert LeaseTasks(db, [], worker, ttl, now) == Ok(db);
  }

  lemma LeasedStands(ops: seq<Op>, ids: map<StepId, TaskId>, st: map<StepId, TaskStatus>, x: StepId, op: Op)
    requires Stands(ops, ids, st) && x in STEPS && 0 in Exec(WitnessRegistry(), ops).runs
    requires var db, db' := Exec(WitnessRegistry(), ops), Exec(WitnessRegistry(), ops + [op]);
             op.Lease? && HasLeased(db, db', ids[x], op.now)
    ensures Stands(ops + [op], ids, st[x := Leased])
  {
    var db, db' := Exec(WitnessRegistry(), ops), Exec(WitnessRegistry(), ops + [op]);
    hide Exec, WitnessRegistry;
    forall y {:trigger ids[y]} | y in STEPS ensures RowIs(db', ids[y], y, st[x := Leased][y]) {
      assert RowIs(db, ids[y], y, st[y]) && RowIs(db, ids[x], x, st[x]);
      assert y != x ==> ids[y] != ids[x];
    }
  }

  // ------------------------------------------------------------------ a failure for good

  const BOOM := "boom"

  /** At most `id` has been added to the tasks, as an open compensation: always, if a step is left to compensate. */
  ghost predicate Unwound(s: Core, s': Core, id: TaskId) {
    && (forall k :: k in s'.tasks ==> k in s.tasks || k == id)
    && (NextCompensation(s).Some? ==> OpenCompensation(s', id) && id !in s.tasks)
  }

  lemma FailedAppends(env: Env, ld: Loaded, id: TaskId) returns (added: TaskId)
    requires LoadedOk(env, ld) && id in ld.state.core.tasks
    requires var t := ld.state.core.tasks[id]; t.kind.Activity? && t.status.Leased? && t.leaseOwner == WORKER
    ensures var o := Execute(env, ld, FailRequest(WORKER, id, BOOM, false));
            && o.Append? && FoldCore(ld.state.core, o.events).Ok?
            && OnlyEnded(ld.state.core, FoldCore(ld.state.core, o.events).value, id, TaskStatus.Failed)
            && Unwound(ld.state.core, FoldCore(ld.state.core, o.events).value, added)
  {
    hide LoadedOk, FinalFailureWork, FailEvent, Final, OnlyEnded, FoldCore, Unwound;
    FinalFailureFinal(env, ld, WORKER, id, BOOM);
    FailureKeepsTasks(env, ld, WORKER, id, BOOM);
    var w := FinalFailureWork(env, ld, FailEvent(env, ld, WORKER, id, BOOM).value, id, BOOM).value;
    FinalCore(BaseOf(ld), env, w);
    added := FailureUnwound(env, ld, id);
  }

  lemma FailureUnwound(env: Env, ld: Loaded, id: TaskId) returns (added: TaskId)
    requires LoadedOk(env, ld) && id in ld.state.core.tasks
    requires var t := ld.state.core.tasks[id]; t.kind.Activity? && t.status.Leased? && t.leaseOwner == WORKER
    requires FailEvent(env, ld, WORKER, id, BOOM).Ok?
    requires FinalFailureWork(env, ld, FailEvent(env, ld, WORKER, id, BOOM).value, id, BOOM).Ok?
    ensures Unwound(ld.state.core, FinalFailureWork(env, ld, FailEvent(env, ld, WORKER, id, BOOM).value, id,
                                                    BOOM).value.state.core, added)
  {
    var t := ld.state.core.tasks[id];
    var e := EndEvent(env, ld, id, TaskFailed(id, t.stepId, WORKER, BOOM, t.phase.Compensation?));
    hide LoadedOk, Ends, Open, FinalFailureWork, FailEvent, BeginCompensationOrFinish, Fresh, Moves, EndEvent,
         NextCompensation;
    var s' := FailEnds(env, ld, WORKER, id, e);
    var w := FailureBegins(env, ld, WORKER, id, BOOM, e, s');
    EndsParts(env, ld, id, e, s');
    MovedKeys(ld.state.core, s', id);
    EndKeepsNext(ld.state.core, s', id);
    BeginTasks(env, w);
    added := env.Id(w.next + 1);
  }

  lemma MovedKeys(s: Core, s': Core, id: TaskId)
    requires Moves(s, s', id)
    ensures id in s'.tasks && s'.tasks.Keys == s.tasks.Keys
  {
  }

  lemma FailedSummary(env: Env, ld: Loaded, id: TaskId)
    requires LoadedOk(env, ld) && id in ld.state.core.tasks && !ld.state.core.cancelRequested
    requires var t := ld.state.core.tasks[id]; t.kind.Activity? && t.status.Leased? && t.leaseOwner == WORKER
    ensures var o := Execute(env, ld, FailRequest(WORKER, id, BOOM, false));
            && o.Append? && FoldCore(ld.state.core, o.events).Ok?
            && Summarises(ld.state.core, FoldCore(ld.state.core, o.events).value, o.run.status)
  {
    hide LoadedOk, FinalFailureWork, FailEvent, Final, Summarises, FoldCore;
    FinalFailureFinal(env, ld, WORKER, id, BOOM);
    var w := FinalFailureWork(env, ld, FailEvent(env, ld, WORKER, id, BOOM).value, id, BOOM).value;
    FinalCore(BaseOf(ld), env, w);
    FailureSummary(env, ld, WORKER, id, BOOM);
  }

  /** One of the tasks fails for good. */
  lemma FailWitness(ops: seq<Op>, ids: map<StepId, TaskId>, st: map<StepId, TaskStatus>, x: StepId)
    returns (op: Op, added: TaskId)
    requires Stands(ops, ids, st) && x in STEPS && st[x].Leased? && !CoreAfter(ops).cancelRequested
    ensures op.Submit? && op.req == FailRequest(WORKER, ids[x], BOOM, false)
    ensures Stands(ops + [op], ids, st[x := TaskStatus.Failed])
    ensures OnlyEnded(CoreAfter(ops), CoreAfter(ops + [op]), ids[x], TaskStatus.Failed)
    ensures Unwound(CoreAfter(ops), CoreAfter(ops + [op]), added)
    ensures 0 in Exec(WitnessRegistry(), ops + [op]).runs
    ensures Summarises(CoreAfter(ops), CoreAfter(ops + [op]), Exec(WitnessRegistry(), ops + [op]).runs[0].status)
  {
    assert x in ids;
    hide Stands, Shows, Exec, Execute, LoadedOk, CoreAfter, FoldCore, OnlyEnded, Unwound, Summarises;
    var env, ld;
    op, env, ld := Reported(ops, ids, st, x, FailRequest(WORKER, ids[x], BOOM, false));
    added := FailedAppends(env, ld, ids[x]);
    FailedSummary(env, ld, ids[x]);
    StandsAfter(ops, ids, st, ld.state.core, ops + [op], x, TaskStatus.Failed);
  }

  // ------------------------------------------------------------------ a failed run that goes on

  lemma NothingToCompensate(s: Core, ids: map<StepId, TaskId>, st: map<StepId, TaskStatus>, def: Definition)
    requires Inv(def, s) && Shows(s, ids, st)
    requires forall x {:trigger st[x]} :: x in STEPS ==> !st[x].Completed?
    ensures NextCompensation(s).None?
  {
    hide StepOk, TaskOk;
    assert forall x {:trigger x in s.outputs} :: x in s.outputs ==> x in s.steps && st[x].Completed?;
  }

  lemma SomethingToCompensate(s: Core, ids: map<StepId, TaskId>, st: map<StepId, TaskStatus>, x: StepId)
    requires Inv(WitnessDefinition(), s) && Shows(s, ids, st) && (x == "a" || x == "b") && st[x].Completed?
             && !s.compensating
    ensures NextCompensation(s).Some?
  {
    WitnessSteps();
    hide WitnessDefinition, TaskOk;
    assert StepOk(WitnessDefinition(), s, x);
    assert Eligible(s.steps, x);
    assert x in s.completedOrder;
  }

  /** Completed work, and a later failure, still count in a run that has failed: it goes back to compensating. */
  lemma FailedIsNotAbsorbing() returns (ops: seq<Op>, more: seq<Op>)
    ensures Registered(WitnessRegistry())
    ensures 0 in Exec(WitnessRegistry(), ops).runs && Exec(WitnessRegistry(), ops).runs[0].status.Failed?
    ensures 0 in Exec(WitnessRegistry(), ops + more).runs
            && Exec(WitnessRegistry(), ops + more).runs[0].status.Compensating?
  {
    WitnessRegistered();
    hide Registered, Exec, Stands, Shows, Inv, Committed, RowsAgree, StateOf, HistoryOf, RowsOf, NextCompensation,
         OnlyEnded, Unwound, WitnessDefinition;
    var start, ids := StartWitness();
    var st := ALL_AVAILABLE;
    var leaseA := LeaseWitness([start], ids, st, "a");
    var ops1 := [start] + [leaseA];
    var leaseC := LeaseWitness(ops1, ids, st["a" := Leased], "c");
    var ops2 := ops1 + [leaseC];
    var leaseD := LeaseWitness(ops2, ids, st["a" := Leased]["c" := Leased], "d");
    var ops3 := ops2 + [leaseD];
    var st3 := st["a" := Leased]["c" := Leased]["d" := Leased];
    ops, more := FailThenGoOn(ops3, ids, st3);
  }

  lemma FailFirst(ops: seq<Op>, ids: map<StepId, TaskId>, st: map<StepId, TaskStatus>) returns (op: Op)
    requires Stands(ops, ids, st) && st == map["a" := Leased, "b" := Available, "c" := Leased, "d" := Leased]
    ensures Stands(ops + [op], ids, st["c" := TaskStatus.Failed]) && HeadsForward(CoreAfter(ops + [op]))
    ensures 0 in Exec(WitnessRegistry(), ops + [op]).runs && Exec(WitnessRegistry(), ops + [op]).runs[0].status.Failed?
  {
    hide Exec, Stands, Shows, Inv, Committed, NextCompensation, OnlyEnded, Unwound, WitnessDefinition,
         WitnessRegistry, CoreAfter;
    RunExists(ops, ids, st);
    var s := StandingCore(ops, ids, st);
    GoesOn(s, Exec(WitnessRegistry(), ops).runs[0].status, ids, st);
    NothingToCompensate(s, ids, st, WitnessDefinition());
    var none;
    op, none := FailWitness(ops, ids, st, "c");
  }

  lemma FailThenGoOn(ops3: seq<Op>, ids: map<StepId, TaskId>, st: map<StepId, TaskStatus>)
    returns (ops: seq<Op>, more: seq<Op>)
    requires Stands(ops3, ids, st) && st == map["a" := Leased, "b" := Available, "c" := Leased, "d" := Leased]
    ensures 0 in Exec(WitnessRegistry(), ops).runs && Exec(WitnessRegistry(), ops).runs[0].status.Failed?
    ensures 0 in Exec(WitnessRegistry(), ops + more).runs
            && Exec(WitnessRegistry(), ops + more).runs[0].status.Compensating?
  {
    hide Exec, Stands, Shows, Inv, Committed, NextCompensation, OnlyEnded, Unwound, WitnessDefinition,
         WitnessRegistry, CoreAfter;
    var failC := FailFirst(ops3, ids, st);
    ops := ops3 + [failC];
    var st4 := st["c" := TaskStatus.Failed];
    var completeA := CompleteWitness(ops, ids, st4, "a");
    var ops5, st5 := ops + [completeA], st4["a" := TaskStatus.Completed];
    var s5 := StandingCore(ops5, ids, st5);
    SomethingToCompensate(s5, ids, st5, "a");
    var failD, added := FailWitness(ops5, ids, st5, "d");
    more := [completeA] + [failD];
    assert ops5 + [failD] == ops + more;
  }

  lemma StandingCore(ops: seq<Op>, ids: map<StepId, TaskId>, st: map<StepId, TaskStatus>) returns (s: Core)
    requires Stands(ops, ids, st)
    ensures 0 in Exec(WitnessRegistry(), ops).runs
    ensures s == CoreAfter(ops) && Shows(s, ids, st) && Inv(WitnessDefinition(), s)
    ensures Committed(Exec(WitnessRegistry(), ops).runs[0].status, s)
  {
    s := StandingState(ops, ids, st);
  }

  lemma RunExists(ops: seq<Op>, ids: map<StepId, TaskId>, st: map<StepId, TaskStatus>)
    requires Stands(ops, ids, st)
    ensures 0 in Exec(WitnessRegistry(), ops).runs
  {
    hide RowIs;
  }

  // ------------------------------------------------------------------ two compensations at once

  /** One compensation has been scheduled for two completed steps: the other step is left. */
  lemma OneLeft(s: Core, ids: map<StepId, TaskId>, st: map<StepId, TaskStatus>, added: TaskId)
    requires Inv(WitnessDefinition(), s) && Shows(s, ids, st) && st["a"].Completed? && st["b"].Completed?
    requires forall id :: id in s.tasks && id != added ==> s.tasks[id].phase.Forward?
    ensures NextCompensation(s).Some?
  {
    WitnessSteps();
    hide WitnessDefinition, DependenciesCompleted;
    assert StepOk(WitnessDefinition(), s, "a") && StepOk(WitnessDefinition(), s, "b");
    var x := if s.steps["a"].compensationScheduled then "b" else "a";
    assert Eligible(s.steps, x);
    assert x in s.completedOrder;
  }

  lemma AfterFirstFailure(s: Core, s': Core, id: TaskId, added: TaskId)
    requires OnlyEnded(s, s', id, TaskStatus.Failed) && Unwound(s, s', added) && NextCompensation(s).Some?
    requires forall k :: k in s.tasks ==> s.tasks[k].phase.Forward?
    ensures forall k :: k in s'.tasks && k != added ==> s'.tasks[k].phase.Forward?
    ensures HasOpen(s', Compensation) && AtMostOne(s')
  {
    hide NextCompensation;
    forall k | k in s'.tasks && k != added ensures s'.tasks[k].phase.Forward? {
      assert k in s.tasks;
    }
    assert OpenCompensation(s', added);
  }

  /** Two open rows of compensations belong to the run. */
  ghost predicate TwoOpen(db: Db, j: TaskId, k: TaskId) {
    && j != k && OpenRow(db, 0, j) && OpenRow(db, 0, k)
    && db.tasks[j].phase.Compensation? && db.tasks[k].phase.Compensation?
  }

  lemma SecondFailureOverlaps(ops: seq<Op>, ids: map<StepId, TaskId>, st: map<StepId, TaskStatus>)
    returns (op: Op, j: TaskId, k: TaskId)
    requires Stands(ops, ids, st) && st["d"].Leased? && !CoreAfter(ops).cancelRequested
    requires AtMostOne(CoreAfter(ops)) && HasOpen(CoreAfter(ops), Compensation)
             && NextCompensation(CoreAfter(ops)).Some?
    ensures 0 in Exec(WitnessRegistry(), ops + [op]).runs && TwoOpen(Exec(WitnessRegistry(), ops + [op]), j, k)
  {
    assert "d" in ids;
    hide Stands, Shows, Exec, Execute, LoadedOk, CoreAfter, FoldCore, OnlyEnded, Unwound, NextCompensation, AtMostOne,
         HasOpen, TwoOpen;
    var req := FailRequest(WORKER, ids["d"], BOOM, false);
    var env, ld;
    op, env, ld := Reported(ops, ids, st, "d", req);
    var added := FailedAppends(env, ld, ids["d"]);
    assert SecondFailure(ld, req);
    OverlapsExactly(env, ld, req);
    j, k := OpenPair(ops + [op]);
  }

  lemma OpenPair(ops: seq<Op>) returns (j: TaskId, k: TaskId)
    requires 0 in Exec(WitnessRegistry(), ops).runs && Exec(WitnessRegistry(), ops).runs[0].workflowName == "witness"
    requires !AtMostOne(CoreAfter(ops))
    ensures TwoOpen(Exec(WitnessRegistry(), ops), j, k)
  {
    WitnessRegistered();
    hide Exec, ViewOk, StateOf, Inv, Committed, RowsAgree, Replay, LegalFrom, ValidDefinition, RowsOf, HistoryOf,
         WitnessDefinition;
    var def, v, s := Reach(WitnessRegistry(), ops, 0);
    Facts(def, v);
    j, k :| OpenCompensation(s, j) && OpenCompensation(s, k) && j != k;
    OpenRowIsOpen(Exec(WitnessRegistry(), ops), 0, s, v, j);
    OpenRowIsOpen(Exec(WitnessRegistry(), ops), 0, s, v, k);
  }

  const ALL_LEASED: map<StepId, TaskStatus> := map["a" := Leased, "b" := Leased, "c" := Leased, "d" := Leased]

  lemma AllLeased() returns (ops: seq<Op>, ids: map<StepId, TaskId>)
    ensures Stands(ops, ids, ALL_LEASED)
  {
    hide Exec, Stands, WitnessRegistry;
    var start;
    start, ids := StartWitness();
    var st := ALL_AVAILABLE;
    var a := LeaseWitness([start], ids, st, "a");
    var b := LeaseWitness([start] + [a], ids, st["a" := Leased], "b");
    var c := LeaseWitness([start] + [a] + [b], ids, st["a" := Leased]["b" := Leased], "c");
    var d := LeaseWitness([start] + [a] + [b] + [c], ids, st["a" := Leased]["b" := Leased]["c" := Leased], "d");
    ops := [start] + [a] + [b] + [c] + [d];
    assert st["a" := Leased]["b" := Leased]["c" := Leased]["d" := Leased] == ALL_LEASED;
  }

  // ------------------------------------------------------------------ a failure that is lost

  lemma {:induction false} RecordedOnce(events: seq<Event>, i: nat)
    requires i < |events| && events[i].payload.RunCompensating? && !CancelledBy(events)
    ensures RecordedFailure(events).Some?
  {
    var init := events[..|events| - 1];
    assert forall k :: 0 <= k < |init| ==> init[k] == events[k];
    if i < |init| { RecordedOnce(init, i); }
  }

  lemma {:induction false} RecordedStays(events: seq<Event>, more: seq<Event>)
    requires events <= more && RecordedFailure(events).Some?
    ensures RecordedFailure(more).Some?
    decreases |more|
  {
    if |more| == |events| {
      assert more == events;
    } else {
      RecordedStays(events, more[..|more| - 1]);
    }
  }

  /** Cancelling goes on with the next compensation. */
  lemma CancelOpens(env: Env, ld: Loaded, reason: string) returns (added: TaskId)
    requires LoadedOk(env, ld) && !ld.run.status.Terminal() && NextCompensation(ld.state.core).Some?
    ensures CancelWork(env, ld, reason).Ok?
    ensures var s := CancelWork(env, ld, reason).value.state.core;
            OpenCompensation(s, added) && s.tasks[added].status.Available?
  {
    hide LoadedOk, Revoking, Good, Final, After, CancelTasks, BeginCompensationOrFinish, Emit, NextCompensation, Fresh;
    CancelWorkFinal(env, ld, reason);
    var s := ld.state.core.(cancelRequested := true);
    var e := EventOf(env, Begin(ld), "", None, RunCancelRequested(reason));
    var w := After(env, Begin(ld), e, s);
    CancelRequestGood(env, ld, e, s);
    CancelTasksGood(env, ld, s, w, ld.listing, reason);
    var w' := CancelTasks(env, ld, w, ld.listing, reason).value;
    RevokingParts(env, ld, s, w');
    SameNext(ld.state.core, s);
    BeginTasks(env, w');
    added := env.Id(w'.next + 1);
  }

  lemma CancelAppends(env: Env, ld: Loaded, reason: string) returns (added: TaskId)
    requires LoadedOk(env, ld) && !ld.run.status.Terminal() && NextCompensation(ld.state.core).Some?
    ensures var o := Execute(env, ld, CancelRequest(0, reason));
            && o.Append? && FoldCore(ld.state.core, o.events).Ok?
            && var s := FoldCore(ld.state.core, o.events).value;
            s.cancelRequested && OpenCompensation(s, added) && s.tasks[added].status.Available?
  {
    hide LoadedOk, Final, NextCompensation, CancelWork, FoldCore;
    CancelWorkFinal(env, ld, reason);
    added := CancelOpens(env, ld, reason);
    var w := CancelWork(env, ld, reason).value;
    FinalCore(BaseOf(ld), env, w);
    CancelBegins(env, ld, reason);
    CancelledFold(ld.state.core, w.events);
  }

  lemma CancelBegins(env: Env, ld: Loaded, reason: string)
    requires CancelWork(env, ld, reason).Ok?
    ensures var w := CancelWork(env, ld, reason).value; w.events != [] && w.events[0].payload.RunCancelRequested?
  {
    hide ApplyCore, CancelTasks, BeginCompensationOrFinish;
    var w := Emit(env, Begin(ld), "", None, RunCancelRequested(reason)).value;
    CancelTasksWork(env, ld, w, ld.listing, reason);
    var w' := CancelTasks(env, ld, w, ld.listing, reason).value;
    BeginExtends(env, w');
    assert CancelWork(env, ld, reason).value.events[0] == w.events[0];
  }

  /** Run 0 is being cancelled, after a failure has been recorded, and compensation task `id` is open. */
  ghost predicate Winding(ops: seq<Op>, id: TaskId, status: TaskStatus) {
    var db := Exec(WitnessRegistry(), ops);
    && 0 in db.runs && db.runs[0].workflowName == "witness"
    && RecordedFailure(HistoryOf(db.history, 0)).Some?
    && id in db.tasks && db.tasks[id].runId == 0 && db.tasks[id].phase.Compensation? && db.tasks[id].kind.Activity?
    && db.tasks[id].status == status && (status.Leased? ==> db.tasks[id].leaseOwner == WORKER)
    && CoreAfter(ops).cancelRequested
  }

  /** A failing compensation then leaves a text behind that differs from the recorded one, whatever that is. */
  lemma LosingFails(ops: seq<Op>, id: TaskId) returns (op: Op)
    requires Winding(ops, id, Leased)
    ensures 0 in Exec(WitnessRegistry(), ops + [op]).runs
    ensures var db := Exec(WitnessRegistry(), ops + [op]);
              !FailureMatches(WitnessDefinition(), db.runs[0], HistoryOf(db.history, 0))
  {
    WitnessRegistered();
    var db := Exec(WitnessRegistry(), ops);
    var recorded := RecordedFailure(HistoryOf(db.history, 0)).value;
    var error := Unlike(recorded, db.tasks[id].stepId);
    var req := FailRequest(WORKER, id, error, false);
    assert Locate(db, req) == Ok(0) && Admissible(db, req);
    op := Submission(db, req, 0);
    hide Exec, Registered, Locate, Allowed, Execute, StateOf, Committed, RowsAgree, Inv, RowsOf, Replay, FoldCore,
         HistoryOf, RecordedFailure,
         CompensationFailure, WitnessDefinition, LoadedOk, TextAgrees, LosesFailure;
    var env, ld := AfterSubmission(WitnessRegistry(), ops, op);
    LoadedTask(env, db, ld, id);
    LoadedStep(env, db, ld, id);
    assert Acceptable(db, req);
    AcceptedExactly(env, ld, req);
    IsLost(ld, req);
    FailedAppend(env, ld, req);
    FailureExactly(env, ld, req);
    ReplayedLater(ops + [op]);
    var db' := Exec(WitnessRegistry(), ops + [op]);
    MatchesMeansAgrees(WitnessDefinition(), db'.runs[0], HistoryOf(db'.history, 0));
    SameText(HistoryOf(db'.history, 0), db'.runs[0].failure, Execute(env, ld, req).run.failure);
  }

  lemma SameText(events: seq<Event>, failure: string, failure': string)
    requires failure == failure'
    ensures TextAgrees(events, failure) <==> TextAgrees(events, failure')
  {
  }

  lemma FailedAppend(env: Env, ld: Loaded, req: Request)
    requires req.FailRequest? && !Execute(env, ld, req).Rejected?
    ensures Execute(env, ld, req).Append?
  {
    hide FailEvent, FinalFailureWork, RetryWork, LeaseCheck, Retries;
  }

  lemma IsLost(ld: Loaded, req: Request)
    requires req.FailRequest? && req.task in ld.state.core.tasks && ld.state.core.cancelRequested
    requires var t := ld.state.core.tasks[req.task]; t.kind.Activity? && t.status.Leased? && t.leaseOwner == req.worker
    requires RecordedFailure(ld.events).Some?
    requires RecordedFailure(ld.events).value != CompensationFailure(ld.state.core.tasks[req.task].stepId, req.error)
    ensures LosesFailure(ld, req)
  {
    hide RecordedFailure, CompensationFailure;
  }

  lemma LoadedStep(env: Env, db: Db, ld: Loaded, id: TaskId)
    requires LoadedOk(env, ld) && ld.tasks == RowsOf(db.tasks, env.runId) && id in db.tasks
             && db.tasks[id].runId == env.runId
    ensures id in ld.state.core.tasks && ld.state.core.tasks[id].stepId == db.tasks[id].stepId
  {
    hide Inv, Committed, Fresh, ValidDefinition;
    assert RowAt(ld.state.core.tasks, ld.tasks, env.runId, id);
  }

  lemma Unlike(recorded: string, stepId: StepId) returns (error: string)
    ensures CompensationFailure(stepId, error) != recorded
  {
    if CompensationFailure(stepId, "") == recorded {
      error := "!";
      assert |CompensationFailure(stepId, "!")| == |CompensationFailure(stepId, "")| + 1;
    } else {
      error := "";
    }
  }

  lemma ReplayedLater(ops: seq<Op>)
    requires 0 in Exec(WitnessRegistry(), ops).runs && Exec(WitnessRegistry(), ops).runs[0].workflowName == "witness"
    ensures var db := Exec(WitnessRegistry(), ops);
              Replay(WitnessDefinition(), db.runs[0], HistoryOf(db.history, 0)).Ok?
  {
    WitnessRegistered();
    hide Exec, ViewOk, StateOf, Inv, Committed, RowsAgree, Replay, LegalFrom, ValidDefinition, RowsOf, HistoryOf,
         WitnessDefinition;
    var def, v, s := Reach(WitnessRegistry(), ops, 0);
    Facts(def, v);
  }

  lemma CancelWitness(ops: seq<Op>) returns (op: Op, added: TaskId)
    requires var db := Exec(WitnessRegistry(), ops);
             && 0 in db.runs && db.runs[0].workflowName == "witness" && !db.runs[0].status.Terminal()
             && RecordedFailure(HistoryOf(db.history, 0)).Some?
    requires NextCompensation(CoreAfter(ops)).Some?
    ensures Winding(ops + [op], added, Available)
  {
    WitnessRegistered();
    var db := Exec(WitnessRegistry(), ops);
    var req := CancelRequest(0, BOOM);
    assert Locate(db, req) == Ok(0) && Admissible(db, req);
    op := Submission(db, req, 0);
    hide Exec, Registered, Locate, Allowed, Execute, StateOf, RowsOf, Replay, FoldCore, HistoryOf, RecordedFailure,
         WitnessDefinition, LoadedOk,
         NextCompensation, Winding;
    var env, ld := AfterSubmission(WitnessRegistry(), ops, op);
    added := CancelAppends(env, ld, BOOM);
    HistoryGrows(WitnessRegistry(), ops, op, 0);
    RecordedStays(HistoryOf(db.history, 0), HistoryOf(Exec(WitnessRegistry(), ops + [op]).history, 0));
    WindingFrom(ops + [op], added, Available);
  }

  lemma WindingFrom(ops: seq<Op>, id: TaskId, status: TaskStatus)
    requires var db := Exec(WitnessRegistry(), ops);
             && 0 in db.runs && db.runs[0].workflowName == "witness" && RecordedFailure(HistoryOf(db.history, 0)).Some?
    requires CoreAfter(ops).cancelRequested && OpenCompensation(CoreAfter(ops), id)
             && CoreAfter(ops).tasks[id].status.Available?
    requires status.Available?
    ensures Winding(ops, id, status)
  {
    WitnessRegistered();
    hide Exec, ViewOk, StateOf, Inv, Committed, RowsAgree, Replay, LegalFrom, ValidDefinition, RowsOf, HistoryOf,
         WitnessDefinition, RecordedFailure;
    var def, v, s := Reach(WitnessRegistry(), ops, 0);
    Facts(def, v);
    OpenRowIsOpen(Exec(WitnessRegistry(), ops), 0, s, v, id);
    CompensationRow(Exec(WitnessRegistry(), ops), def, s, id);
  }

  lemma CompensationRow(db: Db, def: Definition, s: Core, id: TaskId)
    requires RowsAgree(s.tasks, RowsOf(db.tasks, 0), 0) && Inv(def, s) && id in s.tasks
             && s.tasks[id].phase.Compensation?
    ensures id in db.tasks && db.tasks[id].runId == 0 && db.tasks[id].phase.Compensation?
    ensures db.tasks[id].kind.Activity? && db.tasks[id].status == s.tasks[id].status
  {
    hide StepOk, OrderOk;
    assert RowAt(s.tasks, RowsOf(db.tasks, 0), 0, id);
    assert TaskOk(s, id);
  }

  lemma LeaseWinding(ops: seq<Op>, id: TaskId) returns (op: Op)
    requires Winding(ops, id, Available)
    ensures Winding(ops + [op], id, Leased)
  {
    WitnessRegistered();
    hide Exec, Registered, StateOf, HistoryOf, RecordedFailure, WitnessDefinition;
    op := LeaseAvailable(WitnessRegistry(), ops, id);
    HistoryGrows(WitnessRegistry(), ops, op, 0);
    var h, h' := HistoryOf(Exec(WitnessRegistry(), ops).history, 0),
        HistoryOf(Exec(WitnessRegistry(), ops + [op]).history, 0);
    RecordedStays(h, h');
    CancelPersists(ops, ops + [op]);
  }

  lemma CancelPersists(ops: seq<Op>, ops': seq<Op>)
    requires 0 in Exec(WitnessRegistry(), ops).runs && 0 in Exec(WitnessRegistry(), ops').runs
    requires Exec(WitnessRegistry(), ops).runs[0].workflowName == "witness"
             && Exec(WitnessRegistry(), ops').runs[0].workflowName == "witness"
    requires HistoryOf(Exec(WitnessRegistry(), ops).history, 0) <= HistoryOf(Exec(WitnessRegistry(), ops').history, 0)
    requires CoreAfter(ops).cancelRequested
    ensures CoreAfter(ops').cancelRequested
  {
    WitnessRegistered();
    hide Exec, Registered, StateOf, HistoryOf, WitnessDefinition, LegalFrom, ValidDefinition;
    ReachableHistory(WitnessRegistry(), ops, 0);
    ReachableHistory(WitnessRegistry(), ops', 0);
    var h, h' := HistoryOf(Exec(WitnessRegistry(), ops).history, 0),
        HistoryOf(Exec(WitnessRegistry(), ops').history, 0);
    ReplayCancels(WitnessDefinition(), h);
    ReplayCancels(WitnessDefinition(), h');
    var i :| 0 <= i < |h| && h[i].payload.RunCancelRequested?;
    assert h'[i] == h[i];
  }

  /** Compensating without a cancel request, a run has its failure on record. */
  lemma FailureOnRecord(ops: seq<Op>)
    requires 0 in Exec(WitnessRegistry(), ops).runs && Exec(WitnessRegistry(), ops).runs[0].workflowName == "witness"
    requires CoreAfter(ops).compensating && !CoreAfter(ops).cancelRequested
    ensures RecordedFailure(HistoryOf(Exec(WitnessRegistry(), ops).history, 0)).Some?
  {
    WitnessRegistered();
    hide Exec, Registered, StateOf, HistoryOf, WitnessDefinition, LegalFrom, ValidDefinition, RecordedFailure,
         CancelledBy;
    ReachableHistory(WitnessRegistry(), ops, 0);
    var h := HistoryOf(Exec(WitnessRegistry(), ops).history, 0);
    ReplayCancels(WitnessDefinition(), h);
    ReplayCompensates(WitnessDefinition(), h);
    var i :| 0 <= i < |h| && h[i].payload.RunCompensating?;
    RecordedOnce(h, i);
  }

  /** Two steps have completed and one has failed: a compensation is open and another step is left. */
  lemma OneFailure() returns (ops: seq<Op>, ids: map<StepId, TaskId>, st: map<StepId, TaskStatus>)
    ensures Stands(ops, ids, st) && st["d"].Leased?
    ensures 0 in Exec(WitnessRegistry(), ops).runs && Exec(WitnessRegistry(), ops).runs[0].status.Compensating?
    ensures CoreAfter(ops).compensating && !CoreAfter(ops).cancelRequested
    ensures AtMostOne(CoreAfter(ops)) && HasOpen(CoreAfter(ops), Compensation) && NextCompensation(CoreAfter(ops)).Some?
  {
    hide Exec, Stands, Shows, Inv, Committed, NextCompensation, OnlyEnded, Unwound, WitnessDefinition,
         WitnessRegistry, CoreAfter, HasOpen, AtMostOne;
    var ops0;
    ops0, ids := AllLeased();
    var s0 := StandingCore(ops0, ids, ALL_LEASED);
    GoesOn(s0, Exec(WitnessRegistry(), ops0).runs[0].status, ids, ALL_LEASED);
    var completeA := CompleteWitness(ops0, ids, ALL_LEASED, "a");
    var ops1, st1 := ops0 + [completeA], ALL_LEASED["a" := TaskStatus.Completed];
    var completeB := CompleteWitness(ops1, ids, st1, "b");
    var ops2, st2 := ops1 + [completeB], st1["b" := TaskStatus.Completed];
    var s2 := StandingCore(ops2, ids, st2);
    SomethingToCompensate(s2, ids, st2, "b");
    NoCompensations(WitnessDefinition(), s2);
    var failC, added := FailWitness(ops2, ids, st2, "c");
    ops, st := ops2 + [failC], st2["c" := TaskStatus.Failed];
    var s3 := StandingCore(ops, ids, st);
    AfterFirstFailure(s2, s3, ids["c"], added);
    OneLeft(s3, ids, st, added);
  }

  /** A compensation fails in a run that is being cancelled after another failure: replay does not give back what the
      row says. */
  lemma FailureIsLost() returns (ops: seq<Op>)
    ensures Registered(WitnessRegistry()) && 0 in Exec(WitnessRegistry(), ops).runs
    ensures var db := Exec(WitnessRegistry(), ops);
              !FailureMatches(WitnessDefinition(), db.runs[0], HistoryOf(db.history, 0))
  {
    WitnessRegistered();
    hide Exec, Registered, Stands, NextCompensation, WitnessDefinition, WitnessRegistry, CoreAfter, HasOpen,
         AtMostOne, HistoryOf, RecordedFailure, FailureMatches, Winding;
    var ops3, ids, st := OneFailure();
    HeldRow(ops3, ids, st, "d");
    FailureOnRecord(ops3);
    var cancel, added := CancelWitness(ops3);
    var lease := LeaseWinding(ops3 + [cancel], added);
    var fail := LosingFails(ops3 + [cancel] + [lease], added);
    ops := ops3 + [cancel] + [lease] + [fail];
  }

  /** Two tasks fail after two compensable steps have completed: both compensations are open. */
  lemma CompensationsOverlap() returns (ops: seq<Op>, j: TaskId, k: TaskId)
    ensures Registered(WitnessRegistry())
    ensures 0 in Exec(WitnessRegistry(), ops).runs && TwoOpen(Exec(WitnessRegistry(), ops), j, k)
  {
    WitnessRegistered();
    hide Exec, Registered, Stands, NextCompensation, WitnessRegistry, CoreAfter, HasOpen, AtMostOne, TwoOpen;
    var ops3, ids, st := OneFailure();
    var failD;
    failD, j, k := SecondFailureOverlaps(ops3, ids, st);
    ops := ops3 + [failD];
  }

  // ------------------------------------------------------------------ two witnesses about leases

  /** One task has been leased. */
  lemma OneLeased() returns (ops: seq<Op>, id: TaskId)
    ensures Registered(WitnessRegistry())
    ensures RowIs(Exec(WitnessRegistry(), ops), id, "a", Leased)
  {
    WitnessRegistered();
    hide Exec, Registered, Stands, WitnessRegistry, RowIs;
    var start, ids := StartWitness();
    var lease := LeaseWitness([start], ids, ALL_AVAILABLE, "a");
    ops := [start] + [lease];
    HeldRow(ops, ids, ALL_AVAILABLE["a" := Leased], "a");
    id := ids["a"];
  }

  /** The heartbeat column of a leased task differs from what replay says. */
  lemma HeartbeatColumnDiffers() returns (ops: seq<Op>, id: TaskId)
    ensures Registered(WitnessRegistry()) && id in Exec(WitnessRegistry(), ops).tasks
    ensures !HeartbeatAgrees(WitnessRegistry(), Exec(WitnessRegistry(), ops), id)
  {
    WitnessRegistered();
    hide Exec, Registered, Stands, WitnessRegistry, HeartbeatAgrees;
    var start, ids := StartWitness();
    HeldRow([start], ids, ALL_AVAILABLE, "a");
    id := ids["a"];
    var lease := LeaseDisagrees(WitnessRegistry(), [start], id);
    ops := [start] + [lease];
    TasksStay(WitnessRegistry(), [start], [lease], id);
  }

  /** A lease is found expired, renewed, and failed all the same before it has expired again. */
  lemma LiveLeaseIsFailed() returns (ops: seq<Op>, id: TaskId, found: Time, beat: Op, recover: Op)
    ensures Registered(WitnessRegistry()) && id in Exec(WitnessRegistry(), ops).tasks
    ensures var defs, db := WitnessRegistry(), Exec(WitnessRegistry(), ops);
            && Load(defs, db, db.tasks[id].runId, []).Ok? && recover.Submit? && beat.Heartbeat?
            && RecoveryOf(Load(defs, db, db.tasks[id].runId, []).value, id, found) == Some(recover.req)
            && found <= beat.now <= recover.now
    ensures Live(Exec(WitnessRegistry(), ops + [beat]), id, recover.now)
    ensures EndsLease(Exec(WitnessRegistry(), ops + [beat]), Exec(WitnessRegistry(), (ops + [beat]) + [recover]), id)
  {
    hide Exec, Registered, WitnessRegistry, RecoveryOf, Load, Live, EndsLease, Allowed;
    ops, id := OneLeased();
    found, beat, recover := RenewedLeaseIsFailed(WitnessRegistry(), ops, id);
  }
}
