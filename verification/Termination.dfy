/** A measure that every piece of work lowers, so a run comes to rest after a bounded number of commits. */
module Termination {
  import opened Prelude
  import opened Workflow
  import opened History
  import opened Engine
  import opened Reducer
  import opened Invariant
  import opened Chronicle
  import opened Commands
  import opened Tracking
  import opened Settled
  import opened Tables
  import opened Runs
  import opened System
  import opened Operations
  import opened Histories

  // ------------------------------------------------------------------ the measure

  /** Two pieces of work for each attempt that is left: taking it up and ending it. */
  function ForwardWeight(step: StepState): int {
    var m := MaxAttempts(step.definition);
    match step.forwardStatus
    case None => 2 * m
    case Some(Available) => 2 * (m - step.forwardAttempt) + 2
    case Some(Leased) => 2 * (m - step.forwardAttempt) + 1
    case Some(Failed) => 2 * (m - step.forwardAttempt)
    case Some(Completed) => 0
    case Some(Cancelled) => 0
  }

  function CompensationWeight(s: Core, step: StepState): int {
    if step.definition.compensation == "" then 0
    else if step.compensationTaskId.None? || step.compensationTaskId.value !in s.tasks then 2
    else
      match s.tasks[step.compensationTaskId.value].status
      case Available => 2
      case Leased => 1
      case _ => 0
  }

  function Weight(s: Core, x: StepId): int {
    if x in s.steps then ForwardWeight(s.steps[x]) + CompensationWeight(s, s.steps[x]) else 0
  }

  function Measure(s: Core, order: seq<StepId>): int {
    if |order| == 0 then 0 else Measure(s, order[..|order| - 1]) + Weight(s, order[|order| - 1])
  }

  /** What a step can cost at most: its attempts, and the compensation if it has one. */
  function Cost(step: Step): int {
    2 * MaxAttempts(step) + if step.compensation == "" then 0 else 2
  }

  function Budget(def: Definition, order: seq<StepId>): int {
    if |order| == 0 then 0
    else
      var x := order[|order| - 1];
      Budget(def, order[..|order| - 1]) + if x in def.steps then Cost(def.steps[x]) else 0
  }

  function WorkCount(events: seq<Event>): nat {
    if |events| == 0 then 0
    else WorkCount(events[..|events| - 1]) + if IsWork(events[|events| - 1].payload) then 1 else 0
  }

  lemma {:induction false} InitialMeasure(def: Definition, order: seq<StepId>)
    ensures Measure(InitialCore(def), order) == Budget(def, order)
  {
    if order != [] { InitialMeasure(def, order[..|order| - 1]); }
  }

  lemma {:induction false} MeasureIsNonNegative(def: Definition, s: Core, order: seq<StepId>)
    requires Inv(def, s)
    ensures Measure(s, order) >= 0
  {
    if order != [] {
      MeasureIsNonNegative(def, s, order[..|order| - 1]);
      WeightIsNonNegative(def, s, order[|order| - 1]) by { hide Inv; }
    }
  }

  lemma WeightIsNonNegative(def: Definition, s: Core, x: StepId)
    requires Inv(def, s)
    ensures Weight(s, x) >= 0
  {
    hide OrderOk;
    if x in s.steps {
      assert StepOk(def, s, x);
      if s.steps[x].forwardTaskId.Some? {
        assert TaskOk(s, s.steps[x].forwardTaskId.value);
      }
    }
  }

  // ------------------------------------------------------------------ one event

  /** Weights are as before, except that `x` has lost at least `drop`. */
  ghost predicate Lowers(s: Core, s': Core, x: StepId, drop: nat) {
    && (forall y {:trigger Weight(s', y)} :: y != x ==> Weight(s', y) == Weight(s, y))
    && Weight(s', x) <= Weight(s, x) - drop
  }

  lemma {:induction false} LowersMeasure(s: Core, s': Core, x: StepId, drop: nat, order: seq<StepId>)
    requires Lowers(s, s', x, drop) && NoDup(order)
    ensures Measure(s', order) <= Measure(s, order) - (if x in order then drop else 0)
  {
    hide Weight;
    if order != [] {
      var init, y := order[..|order| - 1], order[|order| - 1];
      LowersMeasure(s, s', x, drop, init);
      assert y !in init;
      assert order == init + [y];
    }
  }

  /** Other steps are not touched when task `id` moves. */
  lemma MoveKeepsOthers(def: Definition, s: Core, s': Core, id: TaskId, y: StepId)
    requires Inv(def, s) && Moves(s, s', id) && y != s.tasks[id].stepId
    ensures Weight(s', y) == Weight(s, y)
  {
    hide OrderOk, ForwardWeight;
    if y in s.steps {
      assert StepOk(def, s, y);
    }
  }

  lemma WorkLowersForward(def: Definition, s: Core, e: Event)
    requires Inv(def, s) && Legal(s, e) && IsWork(e.payload) && s.tasks[e.payload.taskId].phase.Forward?
    requires ApplyCore(s, e).Ok? && Moves(s, ApplyCore(s, e).value, e.payload.taskId)
    ensures var x, s' := s.tasks[e.payload.taskId].stepId, ApplyCore(s, e).value; Weight(s', x) <= Weight(s, x) - 1
  {
    hide OrderOk, Moves, StepOk, NextCompensation, DependenciesCompleted;
    var id := e.payload.taskId;
    var x := s.tasks[id].stepId;
    assert TaskOk(s, id);
    ForwardIsNotCompensation(def, s, id);
  }

  lemma ForwardIsNotCompensation(def: Definition, s: Core, id: TaskId)
    requires Inv(def, s) && id in s.tasks && s.tasks[id].phase.Forward?
    ensures s.tasks[id].stepId in s.steps && s.steps[s.tasks[id].stepId].compensationTaskId != Some(id)
  {
    hide OrderOk;
    assert TaskOk(s, id);
    assert StepOk(def, s, s.tasks[id].stepId);
  }

  lemma WorkLowersCompensation(def: Definition, s: Core, e: Event)
    requires Inv(def, s) && Legal(s, e) && IsWork(e.payload) && s.tasks[e.payload.taskId].phase.Compensation?
    requires ApplyCore(s, e).Ok? && Moves(s, ApplyCore(s, e).value, e.payload.taskId)
    ensures var x, s' := s.tasks[e.payload.taskId].stepId, ApplyCore(s, e).value; Weight(s', x) <= Weight(s, x) - 1
  {
    hide OrderOk, Moves, NextCompensation, DependenciesCompleted;
    var id := e.payload.taskId;
    var x := s.tasks[id].stepId;
    assert TaskOk(s, id);
    assert StepOk(def, s, x);
  }

  lemma RetryKeepsWeight(def: Definition, s: Core, e: Event)
    requires Inv(def, s) && Legal(s, e) && e.payload.TaskRetryScheduled?
    requires ApplyCore(s, e).Ok? && Moves(s, ApplyCore(s, e).value, e.payload.taskId)
    ensures var x, s' := s.tasks[e.payload.taskId].stepId, ApplyCore(s, e).value; Weight(s', x) <= Weight(s, x)
  {
    hide OrderOk, Moves, StepOk, NextCompensation, DependenciesCompleted, BackoffForAttempt;
    var id := e.payload.taskId;
    assert TaskOk(s, id);
    ForwardIsNotCompensation(def, s, id);
  }

  lemma HeartbeatKeepsWeights(def: Definition, s: Core, e: Event, y: StepId)
    requires Inv(def, s) && Legal(s, e) && e.payload.TaskHeartbeat? && ApplyCore(s, e).Ok?
    ensures Weight(ApplyCore(s, e).value, y) == Weight(s, y)
  {
    hide Inv, ForwardWeight;
  }

  lemma ScheduledKeepsWeights(def: Definition, s: Core, e: Event, y: StepId)
    requires Inv(def, s) && Legal(s, e) && e.payload.TaskScheduled? && ApplyCore(s, e).Ok?
    ensures Weight(ApplyCore(s, e).value, y) == Weight(s, y)
  {
    hide OrderOk, DependenciesCompleted, FitsStep;
    if y in s.steps {
      assert StepOk(def, s, y);
    }
  }

  lemma RunEventKeepsWeights(s: Core, e: Event, y: StepId)
    requires !IsWork(e.payload) && !e.payload.TaskRetryScheduled? && !e.payload.TaskHeartbeat?
             && !e.payload.TaskScheduled?
    requires !e.payload.TaskLeaseExpired? && ApplyCore(s, e).Ok?
    ensures Weight(ApplyCore(s, e).value, y) == Weight(s, y)
  {
    hide ForwardWeight;
  }

  /** Every legal event leaves the weights alone or lowers one, and work lowers one strictly. */
  lemma EventLowers(def: Definition, s: Core, e: Event) returns (x: StepId)
    requires Inv(def, s) && Legal(s, e)
    ensures ApplyCore(s, e).Ok?
    ensures Lowers(s, ApplyCore(s, e).value, x, if IsWork(e.payload) then 1 else 0)
    ensures IsWork(e.payload) ==> x in def.steps
  {
    LegalKeepsInv(def, s, e);
    if IsWork(e.payload) || e.payload.TaskRetryScheduled? {
      x := WorkLowers(def, s, e);
    } else {
      x := "";
      forall y ensures Weight(ApplyCore(s, e).value, y) == Weight(s, y) {
        hide Legal, ApplyCore, Inv, Weight;
        NoWorkKeepsWeights(def, s, e, y);
      }
    }
  }

  lemma NoWorkKeepsWeights(def: Definition, s: Core, e: Event, y: StepId)
    requires Inv(def, s) && Legal(s, e) && !IsWork(e.payload) && !e.payload.TaskRetryScheduled? && ApplyCore(s, e).Ok?
    ensures Weight(ApplyCore(s, e).value, y) == Weight(s, y)
  {
    hide ApplyCore, Inv, Weight;
    if e.payload.TaskHeartbeat? { HeartbeatKeepsWeights(def, s, e, y); }
    else if e.payload.TaskScheduled? { ScheduledKeepsWeights(def, s, e, y); }
    else { RunEventKeepsWeights(s, e, y); }
  }

  lemma WorkLowers(def: Definition, s: Core, e: Event) returns (x: StepId)
    requires Inv(def, s) && Legal(s, e) && (IsWork(e.payload) || e.payload.TaskRetryScheduled?)
    ensures ApplyCore(s, e).Ok? && Lowers(s, ApplyCore(s, e).value, x, if IsWork(e.payload) then 1 else 0)
    ensures x in def.steps
  {
    hide ApplyCore, Inv, Weight, Moves, NextCompensation;
    if e.payload.TaskCompleted?
      || e.payload.TimerFired? { CompletionMoves(def, s, e); } else { TaskEventMoves(def, s, e); }
    var id, s' := e.payload.taskId, ApplyCore(s, e).value;
    x := s.tasks[id].stepId;
    hide Legal;
    WorkLowersOwn(def, s, e);
    StepIsDefined(def, s, s', id);
    forall y | y != x ensures Weight(s', y) == Weight(s, y) {
      MoveKeepsOthers(def, s, s', id, y);
    }
  }

  lemma StepIsDefined(def: Definition, s: Core, s': Core, id: TaskId)
    requires Inv(def, s) && Moves(s, s', id)
    ensures s.tasks[id].stepId in def.steps
  {
  }

  lemma WorkLowersOwn(def: Definition, s: Core, e: Event)
    requires Inv(def, s) && Legal(s, e) && (IsWork(e.payload) || e.payload.TaskRetryScheduled?)
    requires ApplyCore(s, e).Ok? && Moves(s, ApplyCore(s, e).value, e.payload.taskId)
    ensures var x, s' := s.tasks[e.payload.taskId].stepId, ApplyCore(s, e).value;
            Weight(s', x) <= Weight(s, x) - (if IsWork(e.payload) then 1 else 0)
  {
    assert e.payload.taskId in s.tasks;
    hide Legal, ApplyCore, Inv, Weight, Moves;
    if e.payload.TaskRetryScheduled? { RetryKeepsWeight(def, s, e); }
    else if s.tasks[e.payload.taskId].phase.Forward? { WorkLowersForward(def, s, e); }
    else { WorkLowersCompensation(def, s, e); }
  }

  // ------------------------------------------------------------------ whole histories

  /** What replay of a legal history leaves to be done. */
  function Remaining(def: Definition, events: seq<Event>): int {
    Measure(StateOf(def, events), def.order)
  }

  /** As a history goes on, the measure falls by at least the work that is done. */
  lemma {:induction false} WorkLowersMeasure(def: Definition, events: seq<Event>, n: nat)
    requires Filed(def.steps, def.order) && LegalFrom(InitialCore(def), events) && n <= |events|
    ensures WorkCount(events) + Remaining(def, events) <= WorkCount(events[..n]) + Remaining(def, events[..n])
    ensures Remaining(def, events) <= Remaining(def, events[..n])
  {
    hide Inv, Legal, ApplyCore, Lowers, Measure, IsWork, StateOf, LegalFrom;
    if n == |events| {
      assert events[..n] == events;
    } else {
      var init, e := events[..|events| - 1], events[|events| - 1];
      StateStep(def, events);
      WorkLowersMeasure(def, init, n);
      assert init[..n] == events[..n];
      var x := EventLowers(def, StateOf(def, init), e);
      LowersMeasure(StateOf(def, init), StateOf(def, events), x, if IsWork(e.payload) then 1 else 0, def.order);
    }
  }

  /** The work recorded in a legal history and what is still to come add up to no more than the budget. */
  lemma WorkIsBounded(def: Definition, events: seq<Event>)
    requires Filed(def.steps, def.order) && LegalFrom(InitialCore(def), events)
    ensures WorkCount(events) + Remaining(def, events) <= Budget(def, def.order)
    ensures Remaining(def, events) >= 0
  {
    hide Inv, Measure, Budget, LegalFrom;
    WorkLowersMeasure(def, events, 0);
    assert events[..0] == [];
    StateOfEmpty(def);
    InitialMeasure(def, def.order);
    InvAtEnd(def, events);
    MeasureIsNonNegative(def, StateOf(def, events), def.order);
  }

  // ------------------------------------------------------------------ whole runs of the system

  /** How many operations other than heartbeats, after the one that started it, have changed run `r`. */
  ghost function CommitsOn(defs: Definitions, ops: seq<Op>, r: RunId): nat {
    if |ops| == 0 then 0
    else
      var init, op := ops[..|ops| - 1], ops[|ops| - 1];
      CommitsOn(defs, init, r) + if !op.Heartbeat? && Changed(Exec(defs, init), Exec(defs, ops), r) then 1 else 0
  }

  predicate Changed(db: Db, db': Db, r: RunId) {
    r in db.runs && r in db'.runs && ViewOf(db', r) != ViewOf(db, r)
  }

  /** The history of `r`, empty as long as the run does not exist. */
  ghost function HistoryIn(db: Db, r: RunId): seq<Event> {
    if r in db.runs then HistoryOf(db.history, r) else []
  }

  lemma {:induction false} WorkCountGrows(events: seq<Event>, more: seq<Event>)
    requires events <= more
    ensures WorkCount(events) <= WorkCount(more)
    ensures (exists k :: |events| <= k < |more| && IsWork(more[k].payload)) ==> WorkCount(events) < WorkCount(more)
    decreases |more|
  {
    if |more| == |events| {
      assert more == events;
    } else {
      var init := more[..|more| - 1];
      WorkCountGrows(events, init);
      if k :| |events| <= k < |more| && IsWork(more[k].payload) {
        if k < |init| { assert init[k] == more[k]; }
      }
    }
  }

  /** Every operation but a heartbeat that changes a run adds work to its history. */
  lemma CommitAddsWork(defs: Definitions, db: Db, op: Op, r: RunId)
    requires Registered(defs) && DbOk(defs, db)
    ensures var db' := Next(defs, db, op);
            && WorkCount(HistoryIn(db, r)) <= WorkCount(HistoryIn(db', r))
            && (!op.Heartbeat? && Changed(db, db', r) ==> WorkCount(HistoryIn(db, r)) < WorkCount(HistoryIn(db', r)))
  {
    hide Registered, DbOk, Next, RowsOf;
    NextKeeps(defs, db, op);
    var db' := Next(defs, db, op);
    if r in db.runs {
      assert RunGrew(db, db', r, op.Heartbeat?);
      WorkCountGrows(HistoryIn(db, r), HistoryIn(db', r));
    }
  }

  lemma {:induction false} CommitsAreWork(defs: Definitions, ops: seq<Op>, r: RunId)
    requires Registered(defs)
    ensures CommitsOn(defs, ops, r) <= WorkCount(HistoryIn(Exec(defs, ops), r))
  {
    hide Registered, HistoryIn, Next, Changed;
    if ops != [] {
      var init, op := ops[..|ops| - 1], ops[|ops| - 1];
      CommitsAreWork(defs, init, r);
      ReachableOk(defs, init);
      CommitAddsWork(defs, Exec(defs, init), op, r);
    }
  }

  /** Whatever is done, and in whatever order, a run changes only so often: twice per attempt and twice per
      compensation. */
  lemma CommitsAreBounded(defs: Definitions, ops: seq<Op>, r: RunId)
    requires Registered(defs) && r in Exec(defs, ops).runs
    ensures Exec(defs, ops).runs[r].workflowName in defs
    ensures var def := defs[Exec(defs, ops).runs[r].workflowName]; CommitsOn(defs, ops, r) <= Budget(def, def.order)
  {
    hide DbOk, RunOk, ViewOk, Exec, CommitsOn, WorkCount, Budget, Remaining;
    var db := Exec(defs, ops);
    ReachableView(defs, ops, r);
    var def := defs[db.runs[r].workflowName];
    assert Filed(def.steps, def.order);
    hide Registered;
    CommitsAreWork(defs, ops, r);
    LegalHistory(def, ViewOf(db, r));
    WorkIsBounded(def, ViewOf(db, r).history);
  }

  /** What is left to do in run `r`. */
  ghost function RemainingIn(defs: Definitions, db: Db, r: RunId): int
    requires r in db.runs && db.runs[r].workflowName in defs
  {
    Remaining(defs[db.runs[r].workflowName], HistoryOf(db.history, r))
  }

  /** Every operation but a heartbeat that changes a run lowers the measure of what is left to do, and none raises
      it. */
  lemma CommitsLowerMeasure(defs: Definitions, ops: seq<Op>, op: Op, r: RunId)
    requires Registered(defs) && r in Exec(defs, ops).runs
    ensures var db, db' := Exec(defs, ops), Exec(defs, ops + [op]);
            && r in db'.runs && db.runs[r].workflowName in defs && db'.runs[r].workflowName == db.runs[r].workflowName
            && 0 <= RemainingIn(defs, db', r) <= RemainingIn(defs, db, r)
            && (!op.Heartbeat? && Changed(db, db', r) ==> RemainingIn(defs, db', r) < RemainingIn(defs, db, r))
  {
    hide Exec, Registered, DbOk, Next, RowsOf, ViewOk, WorkCount, Remaining, LegalFrom, ValidDefinition;
    var db := Exec(defs, ops);
    ReachableOk(defs, ops);
    ExecSnoc(defs, ops, op);
    var db' := Exec(defs, ops + [op]);
    NextKeeps(defs, db, op);
    CommitAddsWork(defs, db, op, r);
    assert RunGrew(db, db', r, op.Heartbeat?);
    ReachableView(defs, ops, r);
    ReachableView(defs, ops + [op], r);
    var def, h, h' := defs[db.runs[r].workflowName], HistoryOf(db.history, r), HistoryOf(db'.history, r);
    LegalHistory(def, ViewOf(db', r));
    assert Filed(def.steps, def.order) by { ValidIsFiled(def); }
    assert h'[..|h|] == h;
    WorkLowersMeasure(def, h', |h|);
    WorkIsBounded(def, h');
  }

  lemma ValidIsFiled(def: Definition)
    requires ValidDefinition(def)
    ensures Filed(def.steps, def.order)
  {
  }
}
