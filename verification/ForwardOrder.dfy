/** Which steps a run goes on with, and in which order: those that have become ready, as they were declared. */
module ForwardOrder {
  import opened Prelude
  import opened Workflow
  import opened History
  import opened Engine
  import opened Reducer
  import opened Invariant
  import opened Chronicle
  import opened Commands
  import opened Tracking
  import opened Settled
  import opened CommandProofs
  import opened CancelProofs
  import opened Tables
  import opened Runs
  import opened System
  import opened Operations
  import opened Histories
  import opened Guarantees
  import opened Overlap
  import opened Footprint
  import opened Steps
  import opened Failed
  import opened Effects

  // ------------------------------------------------------------------ one pass over the declared steps

  /** The ready ones among the listed steps, in their order. */
  function ReadyIn(s: Core, list: seq<StepId>): seq<StepId> {
    if |list| == 0 then []
    else
      var x := list[|list| - 1];
      ReadyIn(s, list[..|list| - 1]) + if x in s.steps && Ready(s, x) then [x] else []
  }

  lemma {:induction false} ScheduledConcat(events: seq<Event>, more: seq<Event>, compensation: bool)
    ensures ScheduledSteps(events + more, compensation)
              == ScheduledSteps(events, compensation) + ScheduledSteps(more, compensation)
  {
    if more == [] {
      assert events + more == events;
    } else {
      ScheduledConcat(events, more[..|more| - 1], compensation);
      assert (events + more)[..|events + more| - 1] == events + more[..|more| - 1];
      assert (events + more)[|events + more| - 1] == more[|more| - 1];
    }
  }

  /** Only the listed steps have changed. */
  predicate OtherStepsStay(s: Core, s': Core, list: seq<StepId>) {
    && s'.outputs == s.outputs && s'.steps.Keys == s.steps.Keys
    && forall x :: x in s.steps && x !in list ==> s'.steps[x] == s.steps[x]
  }

  lemma ScheduleOne(env: Env, w: Work, step: Step)
    requires Schedule(env, w, step, Forward).Ok?
    ensures var w' := Schedule(env, w, step, Forward).value;
            && OtherStepsStay(w.state.core, w'.state.core, [step.id])
            && ScheduledSteps(w'.events, false) == ScheduledSteps(w.events, false) + [step.id]
  {
    hide ApplyRun;
    var w' := Schedule(env, w, step, Forward).value;
    assert w'.events[..|w'.events| - 1] == w.events;
  }

  predicate NamedSteps(s: Core) {
    forall x :: x in s.steps ==> s.steps[x].definition.id == x
  }

  /** The pass schedules exactly the steps that are ready when it begins, in the order of the list. */
  lemma {:induction false} PassSchedules(env: Env, w: Work, list: seq<StepId>)
    requires ScheduleForwardReady(env, w, list).Ok? && NoDup(list) && NamedSteps(w.state.core)
    ensures var w' := ScheduleForwardReady(env, w, list).value;
            && OtherStepsStay(w.state.core, w'.state.core, list)
            && ScheduledSteps(w'.events, false) == ScheduledSteps(w.events, false) + ReadyIn(w.state.core, list)
  {
    hide Schedule, ScheduledSteps;
    if list != [] {
      var init, x := list[..|list| - 1], list[|list| - 1];
      PassSchedules(env, w, init);
      var w1 := ScheduleForwardReady(env, w, init).value;
      assert x !in init;
      if x in w1.state.core.steps && Ready(w1.state.core, x) {
        ScheduleOne(env, w1, w1.state.core.steps[x].definition);
      }
    }
  }

  lemma CompletedSchedulesNothing(env: Env, w: Work, output: Json)
    requires Emit(env, w, "", None, RunCompleted(output)).Ok?
    ensures ScheduledSteps(Emit(env, w, "", None, RunCompleted(output)).value.events, false)
              == ScheduledSteps(w.events, false)
  {
    hide Apply;
    var w' := Emit(env, w, "", None, RunCompleted(output)).value;
    assert w'.events[..|w'.events| - 1] == w.events;
  }

  lemma PostProcessSchedules(env: Env, order: seq<StepId>, w: Work)
    requires PostProcess(env, order, w).Ok? && !w.state.core.compensating && NoDup(order) && NamedSteps(w.state.core)
    ensures ScheduledSteps(PostProcess(env, order, w).value.events, false)
              == ScheduledSteps(w.events, false) + ReadyIn(w.state.core, order)
  {
    hide Emit, ScheduleForwardReady, AllForwardCompleted, HasOpen, RunOutput, ScheduledSteps, ReadyIn;
    PassSchedules(env, w, order);
    var w1 := ScheduleForwardReady(env, w, order).value;
    if AllForwardCompleted(order, w1.state.core) && !HasOpen(w1.state.core, Forward) {
      CompletedSchedulesNothing(env, w1, RunOutput(w1.state.core));
    }
  }

  // ------------------------------------------------------------------ read off the history

  /** The declared steps that were not scheduled by `h`, and whose dependencies have all completed in `h'`, in their
      order. */
  function NowReady(def: Definition, h: seq<Event>, h': seq<Event>, list: seq<StepId>): seq<StepId> {
    if |list| == 0 then []
    else
      var x := list[|list| - 1];
      NowReady(def, h, h', list[..|list| - 1])
      + if x in def.steps && x !in ScheduledSteps(h, false)
           && forall k :: 0 <= k < |def.steps[x].dependencies| ==> def.steps[x].dependencies[k] in CompletedSteps(h')
        then [x] else []
  }

  lemma StepReady(def: Definition, s: Core, x: StepId, h: seq<Event>, h': seq<Event>)
    requires Inv(def, s)
    requires forall y :: IsScheduled(s, y, false) <==> y in ScheduledSteps(h, false)
    requires forall y :: y in s.outputs <==> y in CompletedSteps(h')
    ensures x in s.steps && Ready(s, x) <==>
              && x in def.steps && x !in ScheduledSteps(h, false)
              && forall k :: 0 <= k < |def.steps[x].dependencies| ==> def.steps[x].dependencies[k] in CompletedSteps(h')
  {
    hide OrderOk, TaskOk, ScheduledSteps, CompletedSteps;
    if x in s.steps { assert StepOk(def, s, x); }
  }

  lemma {:induction false} ReadyIsNowReady(def: Definition, s: Core, list: seq<StepId>, h: seq<Event>, h': seq<Event>)
    requires Inv(def, s)
    requires forall y :: IsScheduled(s, y, false) <==> y in ScheduledSteps(h, false)
    requires forall y :: y in s.outputs <==> y in CompletedSteps(h')
    ensures ReadyIn(s, list) == NowReady(def, h, h', list)
  {
    hide Inv, Ready, ScheduledSteps, CompletedSteps, IsScheduled;
    if list != [] {
      ReadyIsNowReady(def, s, list[..|list| - 1], h, h');
      StepReady(def, s, list[|list| - 1], h, h');
    }
  }

  lemma NamedByDefinition(def: Definition, s: Core)
    requires Inv(def, s) && Filed(def.steps, def.order)
    ensures NamedSteps(s)
  {
    hide OrderOk, TaskOk;
    forall x | x in s.steps ensures s.steps[x].definition.id == x { assert StepOk(def, s, x); }
  }

  // ------------------------------------------------------------------ commands

  /** What the end of a task going forward schedules. */
  lemma EndSchedules(env: Env, ld: Loaded, id: TaskId, e: Event, s': Core)
    requires LoadedOk(env, ld) && Ends(env, ld, id, e, s') && ld.state.core == StateOf(ld.def, ld.events)
    requires LegalFrom(InitialCore(ld.def), ld.events) && FoldCore(InitialCore(ld.def), ld.events).Ok?
    requires !ld.state.core.compensating && (e.payload.TaskCompleted? || e.payload.TimerFired?)
    requires PostProcess(env, ld.def.order, EndedWork(env, ld, id, e, s')).Ok?
    ensures var w := PostProcess(env, ld.def.order, EndedWork(env, ld, id, e, s')).value;
            ScheduledSteps(w.events, false) == NowReady(ld.def, ld.events, ld.events + [e], ld.def.order)
  {
    EndsInv(env, ld, id, e, s') by { hide LoadedOk, Ends; }
    EndsParts(env, ld, id, e, s') by { hide LoadedOk, Ends; }
    LoadedFacts(env, ld) by { hide LoadedOk, Ends; }
    assert ApplyCore(ld.state.core, e) == Ok(s')
           && Legal(ld.state.core, e) by { hide LoadedOk, Moves, Legal, ApplyCore; }
    hide LoadedOk, Ends, PostProcess, Moves, Inv, Committed, Legal, ApplyCore, FoldCore, InitialCore, StateOf,
         LegalFrom;
    MovedFlags(ld.state.core, s', id);
    NamedByDefinition(ld.def, s');
    EndedEvents(env, ld, id, e, s');
    PostProcessSchedules(env, ld.def.order, EndedWork(env, ld, id, e, s'));
    NextState(ld.def, ld.events, e, s');
    forall y ensures IsScheduled(s', y, false) <==> y in ScheduledSteps(ld.events, false) {
      ReplaySchedules(ld.def, ld.events + [e], y, false);
      SchedulesNoMore(ld.events, e);
    }
    ReplayCompletes(ld.def, ld.events + [e]);
    CompletionOrder(ld.def, ld.events + [e]);
    ReadyIsNowReady(ld.def, s', ld.def.order, ld.events, ld.events + [e]);
  }

  lemma SchedulesNoMore(events: seq<Event>, e: Event)
    requires !e.payload.TaskScheduled?
    ensures ScheduledSteps(events + [e], false) == ScheduledSteps(events, false)
  {
    assert (events + [e])[..|events|] == events;
  }

  lemma NextState(def: Definition, events: seq<Event>, e: Event, s': Core)
    requires LegalFrom(InitialCore(def), events) && FoldCore(InitialCore(def), events).Ok?
    requires Legal(StateOf(def, events), e) && ApplyCore(StateOf(def, events), e) == Ok(s')
    ensures LegalFrom(InitialCore(def), events + [e]) && StateOf(def, events + [e]) == s'
  {
    hide Legal, ApplyCore, InitialCore, LegalFrom;
    assert StateOf(def, events) == FoldCore(InitialCore(def), events).value;
    LegalFromSnoc(InitialCore(def), events, e);
    FoldCoreSnoc(InitialCore(def), events, e);
  }

  lemma EndedEvents(env: Env, ld: Loaded, id: TaskId, e: Event, s': Core)
    requires id in s'.tasks && !e.payload.TaskScheduled?
    ensures ScheduledSteps(EndedWork(env, ld, id, e, s').events, false) == []
    ensures EndedWork(env, ld, id, e, s').state.core == s'
  {
    assert EndedWork(env, ld, id, e, s').events == [e];
    assert [e][..0] == [];
    assert ScheduledSteps([], false) == [];
  }

  /** The loaded state is the one that the history replays to. */
  predicate LoadedHistory(ld: Loaded) {
    && LegalFrom(InitialCore(ld.def), ld.events) && FoldCore(InitialCore(ld.def), ld.events).Ok?
    && ld.state.core == StateOf(ld.def, ld.events)
  }

  lemma CompletionSchedules(env: Env, ld: Loaded, worker: string, id: TaskId, output: Json) returns (e: Event)
    requires LoadedOk(env, ld) && LeaseCheck(ld, worker, id).None? && ld.state.core.tasks[id].kind.Activity?
    requires LoadedHistory(ld) && !ld.state.core.compensating && CompleteWork(env, ld, worker, id, output).Ok?
    ensures var w := CompleteWork(env, ld, worker, id, output).value;
            && w.events != [] && w.events[0] == e
            && ScheduledSteps(w.events, false) == NowReady(ld.def, ld.events, ld.events + [e], ld.def.order)
  {
    var t := ld.state.core.tasks[id];
    e := EndEvent(env, ld, id, TaskCompleted(id, t.stepId, worker, NormalizeJson(output), t.phase.Compensation?));
    hide LoadedOk, CompleteWork, Ends, PostProcess, EmitAndUpdate, Open, LeaseCheck, StateOf, LegalFrom, FoldCore,
         InitialCore, NowReady,
         ScheduledSteps;
    var s' := CompleteEnds(env, ld, worker, id, e);
    EndsGood(env, ld, id, e, s');
    CompleteWorkIs(env, ld, worker, id, output, EndedWork(env, ld, id, e, s'));
    FirstEvent(env, ld.def.order, EndedWork(env, ld, id, e, s'), e);
    hide EndedWork;
    EndSchedules(env, ld, id, e, s');
  }

  lemma FirstEvent(env: Env, order: seq<StepId>, w: Work, e: Event)
    requires PostProcess(env, order, w).Ok? && w.events == [e]
    ensures PostProcess(env, order, w).value.events != [] && PostProcess(env, order, w).value.events[0] == e
  {
    hide PostProcess;
    PostProcessExtends(env, order, w);
  }

  lemma FiringSchedules(env: Env, ld: Loaded, id: TaskId) returns (e: Event)
    requires LoadedOk(env, ld) && TimerDue(ld, id, env.now)
    requires LoadedHistory(ld) && !ld.state.core.compensating && FireWork(env, ld, id).Ok?
    ensures var w := FireWork(env, ld, id).value;
            && w.events != [] && w.events[0] == e
            && ScheduledSteps(w.events, false) == NowReady(ld.def, ld.events, ld.events + [e], ld.def.order)
  {
    e := EndEvent(env, ld, id, TimerFired(id, ld.state.core.tasks[id].stepId));
    hide LoadedOk, Ends, PostProcess, EmitAndUpdate, Open, StateOf, LegalFrom, FoldCore, InitialCore, NowReady,
         ScheduledSteps;
    var s' := FireEnds(env, ld, id, e);
    EndsGood(env, ld, id, e, s');
    FirstEvent(env, ld.def.order, EndedWork(env, ld, id, e, s'), e);
    hide EndedWork;
    EndSchedules(env, ld, id, e, s');
  }

  lemma {:induction false} SameReady(def: Definition, h: seq<Event>, h': seq<Event>, h'': seq<Event>, list: seq<StepId>)
    requires CompletedSteps(h') == CompletedSteps(h'')
    ensures NowReady(def, h, h', list) == NowReady(def, h, h'', list)
  {
    hide ScheduledSteps, CompletedSteps;
    if list != [] { SameReady(def, h, h', h'', list[..|list| - 1]); }
  }

  lemma {:induction false} NoCompletions(h: seq<Event>, more: seq<Event>)
    requires forall i :: 0 <= i < |more| ==> Completion(more[i]).None?
    ensures CompletedSteps(h + more) == CompletedSteps(h)
  {
    if more == [] {
      assert h + more == h;
    } else {
      NoCompletions(h, more[..|more| - 1]);
      assert (h + more)[..|h + more| - 1] == h + more[..|more| - 1];
    }
  }

  lemma ScheduledByFirst(def: Definition, h: seq<Event>, more: seq<Event>)
    requires more != [] && forall i :: 1 <= i < |more| ==> Completion(more[i]).None?
    requires ScheduledSteps(more, false) == NowReady(def, h, h + [more[0]], def.order)
    ensures ScheduledSteps(h + more, false) == ScheduledSteps(h, false) + NowReady(def, h, h + more, def.order)
  {
    hide ScheduledSteps, NowReady, CompletedSteps;
    ScheduledConcat(h, more, false);
    assert h + more == (h + [more[0]]) + more[1..];
    NoCompletions(h + [more[0]], more[1..]);
    SameReady(def, h, h + [more[0]], h + more, def.order);
  }

  lemma EndGoesOn(v: View, v': View, env: Env, ld: Loaded, req: Request, w: Work)
    requires CommandStep(v, v', env, ld, req, w) && (req.CompleteRequest? || req.FireRequest?)
    requires LoadedHistory(ld) && !ld.state.core.compensating
    ensures ScheduledSteps(v'.history, false) ==
            ScheduledSteps(v.history, false) + NowReady(ld.def, v.history, v'.history, ld.def.order)
  {
    CommandWrites(v, v', env, ld, req, w) by { hide CommandStep, WritesOnly, LoadedHistory; }
    assert ld.events == v.history by { hide LoadedOk, Replay, Execute, Commits, LoadedHistory; }
    ConsequencesCompleteNothing(ld, req, w.events, w.mutations) by { hide CommandStep, WritesOnly, LoadedHistory; }
    hide CommandStep, WritesOnly, ScheduledSteps, NowReady, LoadedOk, CompleteWork, FireWork, LeaseCheck;
    var e;
    if req.CompleteRequest? {
      CompletionWork(v, v', env, ld, req, w) by { hide LoadedHistory; }
      e := CompletionSchedules(env, ld, req.worker, req.task, req.output);
    } else {
      FiringWork(v, v', env, ld, req, w) by { hide LoadedHistory; }
      e := FiringSchedules(env, ld, req.task);
    }
    hide LoadedHistory;
    ScheduledByFirst(ld.def, v.history, w.events);
  }

  // ------------------------------------------------------------------ every reachable run

  /** Going forward, a task that completes or a timer that fires is followed by the scheduling of exactly the steps
      that have become ready, in the order of their declaration. */
  lemma RunGoesOn(defs: Definitions, ops: seq<Op>, op: Op, r: RunId)
    requires Registered(defs) && r in Exec(defs, ops).runs && SubmitsTo(defs, Exec(defs, ops), op, r)
    requires op.req.CompleteRequest? || op.req.FireRequest?
    requires var h := HistoryOf(Exec(defs, ops).history, r);
             !exists i :: 0 <= i < |h| && h[i].payload.RunCompensating?
    ensures var db, db' := Exec(defs, ops), Exec(defs, ops + [op]);
            && r in db'.runs && db.runs[r].workflowName in defs
            && var def, h, h' := defs[db.runs[r].workflowName], HistoryOf(db.history, r), HistoryOf(db'.history, r);
            ScheduledSteps(h', false) == ScheduledSteps(h, false) + NowReady(def, h, h', def.order)
  {
    var db := Exec(defs, ops);
    SubmitIsLoaded(defs, db, op, r) by { hide Exec, SubmitsTo; }
    hide Exec, Registered, DbOk, Next, SubmitsTo, CommandStep, NowReady, ScheduledSteps, RowsOf;
    ReachableOk(defs, ops);
    ExecSnoc(defs, ops, op);
    var w := SubmitStep(defs, db, op, r);
    var ld := LoadOf(defs, db, op, r);
    LoadedParts(defs, db, r, op.listing);
    ReachableLoad(defs, ops, r, ld);
    EndGoesOn(ViewOf(db, r), ViewOf(Next(defs, db, op), r), Env(r, op.now, op.uuid), ld, op.req, w);
  }

  lemma ReachableLoad(defs: Definitions, ops: seq<Op>, r: RunId, ld: Loaded)
    requires Registered(defs) && r in Exec(defs, ops).runs && ld.events == HistoryOf(Exec(defs, ops).history, r)
    requires Exec(defs, ops).runs[r].workflowName in defs && ld.def == defs[Exec(defs, ops).runs[r].workflowName]
    requires Replay(ld.def, ld.run, ld.events) == Ok(ld.state)
    ensures LoadedHistory(ld)
    ensures ld.state.core.compensating <==> exists i :: 0 <= i < |ld.events| && ld.events[i].payload.RunCompensating?
  {
    hide Exec, Registered, ValidDefinition, LegalFrom, FoldCore, Fold;
    ReachableHistory(defs, ops, r);
    FoldIsCoreFold(Initial(ld.def, ld.run), ld.events);
    ReplayCompensates(ld.def, ld.events);
  }

  // ------------------------------------------------------------------ the beginning

  lemma RootsScheduled(env: Env, def: Definition, input: Json, w: Work)
    requires ValidDefinition(def) && StartWork(env, def, input) == Ok(w)
    ensures ScheduledSteps(w.events, false) == NowReady(def, [], [], def.order)
  {
    assert Filed(def.steps, def.order);
    hide ScheduleForwardReady, Fold, Ready, ValidDefinition;
    var started, run := StartedEvent(env, def.name, NormalizeJson(input)), NewRun(env, def.name, NormalizeJson(input));
    var w0 := Work(Replay(def, run, [started]).value, 2, [started], []);
    assert w0.state.core == InitialCore(def) by { StartedCore(def, run, started); }
    assert [started][..0] == [] && ScheduledSteps([], false) == [];
    InitialInv(def) by { hide InitialCore, Inv; }
    NamedByDefinition(def, InitialCore(def)) by { hide InitialCore, Inv; }
    PassSchedules(env, w0, def.order);
    hide Inv;
    assert CompletedSteps([]) == [];
    ReadyIsNowReady(def, InitialCore(def), def.order, [], []);
  }

  lemma StartedCore(def: Definition, run: RunRecord, started: Event)
    requires started.payload.WorkflowStarted? && Replay(def, run, [started]).Ok?
    ensures Replay(def, run, [started]).value.core == InitialCore(def)
  {
    assert [started][..0] == [];
    assert Fold(Initial(def, run), []) == Ok(Initial(def, run));
  }

  /** A new run begins with the steps that depend on nothing, in the order of their declaration. */
  lemma StartsWithRoots(defs: Definitions, ops: seq<Op>, op: Op)
    requires Registered(defs) && op.Start? && Allowed(Exec(defs, ops), op)
    requires op.workflow in defs && op.runId !in Exec(defs, ops).runs
    ensures var db' := Exec(defs, ops + [op]);
            && op.runId in db'.runs
            && ScheduledSteps(HistoryOf(db'.history, op.runId), false)
                   == NowReady(defs[op.workflow], [], [], defs[op.workflow].order)
  {
    hide Exec, Registered, DbOk, Launch, StartWork, ViewOk, RowsOf, Mutated, ScheduledSteps, NowReady, ValidDefinition;
    var db := Exec(defs, ops);
    ReachableOk(defs, ops);
    ExecSnoc(defs, ops, op);
    var env, def := Env(op.runId, op.now, op.uuid), defs[op.workflow];
    var w := LaunchAdds(defs, db, op.runId, op.workflow, op.input, op.now, op.uuid);
    assert ViewOf(Exec(defs, ops + [op]), op.runId).history == w.events;
    assert ValidDefinition(def) by { DefinitionIsValid(defs, op.workflow); }
    RootsScheduled(env, def, op.input, w);
  }

  lemma DefinitionIsValid(defs: Definitions, name: string)
    requires Registered(defs) && name in defs
    ensures ValidDefinition(defs[name])
  {
    hide ValidDefinition;
  }
}
