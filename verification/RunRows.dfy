/** The run row, read off the history; and how a run begins. */
module RunRows {
  import opened Prelude
  import opened Workflow
  import opened History
  import opened Engine
  import opened Reducer
  import opened Invariant
  import opened Chronicle
  import opened Commands
  import opened Tracking
  import opened Settled
  import opened CommandProofs
  import opened CancelProofs
  import opened Tables
  import opened Runs
  import opened System
  import opened Operations
  import opened Histories
  import opened Guarantees
  import opened Footprint
  import opened Steps
  import opened Summaries
  import opened Outcomes

  // ------------------------------------------------------------------ what the history says of the run

  /** The status that an event gives to the run, if it gives one. */
  function StatusGiven(p: Payload): Option<RunStatus> {
    match p
    case WorkflowStarted(_, _) => Some(Running)
    case RunCancelRequested(_) => Some(Cancelling)
    case RunCompensating(_) => Some(RunStatus.Compensating)
    case RunCompleted(_) => Some(RunStatus.Completed)
    case RunFailed(_) => Some(RunStatus.Failed)
    case RunCancelled(_) => Some(RunStatus.Cancelled)
    case _ => None
  }

  function LastStatus(events: seq<Event>): Option<RunStatus> {
    if |events| == 0 then None
    else
      var given := StatusGiven(events[|events| - 1].payload);
      if given.Some? then given else LastStatus(events[..|events| - 1])
  }

  /** The reason given with the last cancel request. */
  function LastReason(events: seq<Event>): string {
    if |events| == 0 then ""
    else
      match events[|events| - 1].payload
      case RunCancelRequested(reason) => reason
      case _ => LastReason(events[..|events| - 1])
  }

  lemma {:induction false} LastStatusConcat(events: seq<Event>, more: seq<Event>)
    ensures LastStatus(events + more) == if LastStatus(more).Some? then LastStatus(more) else LastStatus(events)
  {
    if more == [] {
      assert events + more == events;
    } else {
      LastStatusConcat(events, more[..|more| - 1]);
      assert (events + more)[..|events + more| - 1] == events + more[..|more| - 1];
      assert (events + more)[|events + more| - 1] == more[|more| - 1];
    }
  }

  lemma {:induction false} ReasonStays(events: seq<Event>, more: seq<Event>)
    requires forall i :: 0 <= i < |more| ==> !more[i].payload.RunCancelRequested?
    ensures LastReason(events + more) == LastReason(events)
  {
    if more == [] {
      assert events + more == events;
    } else {
      ReasonStays(events, more[..|more| - 1]);
      assert (events + more)[..|events + more| - 1] == events + more[..|more| - 1];
    }
  }

  lemma ReasonSet(events: seq<Event>, more: seq<Event>, reason: string)
    requires more != [] && more[0].payload == RunCancelRequested(reason)
    requires forall i :: 1 <= i < |more| ==> !more[i].payload.RunCancelRequested?
    ensures LastReason(events + more) == reason
  {
    ReasonStays(events + more[..1], more[1..]);
    assert (events + more[..1]) + more[1..] == events + more;
    assert (events + more[..1])[..|events|] == events;
  }

  lemma {:induction false} ReplayedStatus(s: RunState, events: seq<Event>)
    requires Fold(s, events).Ok?
    ensures Fold(s, events).value.run.status == LastStatus(events).GetOr(s.run.status)
  {
    hide ApplyCore;
    if events != [] { ReplayedStatus(s, events[..|events| - 1]); }
  }

  lemma {:induction false} ReplayedInput(s: RunState, events: seq<Event>)
    requires Fold(s, events).Ok? && forall i :: 0 <= i < |events| ==> !events[i].payload.WorkflowStarted?
    ensures Fold(s, events).value.run.input == s.run.input
  {
    hide ApplyCore;
    if events != [] { ReplayedInput(s, events[..|events| - 1]); }
  }

  lemma {:induction false} ReplayedStart(s: RunState, events: seq<Event>)
    requires Fold(s, events).Ok? && events != [] && events[0].payload.WorkflowStarted?
    requires forall i :: 1 <= i < |events| ==> !events[i].payload.WorkflowStarted?
    ensures Fold(s, events).value.run.input == events[0].payload.input
  {
    hide ApplyCore;
    if |events| > 1 { ReplayedStart(s, events[..|events| - 1]); }
  }

  // ------------------------------------------------------------------ every reachable run

  /** The columns of the run row are those that its history tells. */
  predicate RunTold(v: View) {
    && v.history != [] && v.history[0].payload.WorkflowStarted?
    && (forall i :: 1 <= i < |v.history| ==> !v.history[i].payload.WorkflowStarted?)
    && v.run.workflowName == v.history[0].payload.workflow && v.run.input == v.history[0].payload.input
    && v.run.createdAt == v.history[0].createdAt && v.run.updatedAt == v.history[|v.history| - 1].createdAt
    && LastStatus(v.history) == Some(v.run.status)
    && v.run.cancelReason == LastReason(v.history)
    && (v.run.output.Some? ==> exists i :: 0 <= i < |v.history| && v.history[i].payload.RunCompleted?)
  }

  lemma RunToldByStore()
    ensures KeptByStore(v => RunTold(v))
  {
    forall v, v', id, e {:trigger StoreStep(v, v', id, e)} | RunTold(v) && StoreStep(v, v', id, e) ensures RunTold(v') {
      StoreStepTells(v, v', id, e);
    }
  }

  lemma StoreStepTells(v: View, v': View, id: TaskId, e: Event)
    requires RunTold(v) && StoreStep(v, v', id, e)
    ensures RunTold(v')
  {
    assert e.payload.TaskLeased? || e.payload.TaskHeartbeat?;
    hide RowStep;
    assert v'.history[..|v'.history| - 1] == v.history;
    if i :| 0 <= i < |v.history| && v.history[i].payload.RunCompleted? { assert v'.history[i] == v.history[i]; }
  }

  lemma CommandReplaysRun(v: View, v': View, env: Env, ld: Loaded, req: Request, w: Work)
    requires CommandStep(v, v', env, ld, req, w)
    ensures ld.run == v.run && ld.events == v.history && Fold(Initial(ld.def, ld.run), ld.events) == Ok(ld.state)
    ensures Fold(ld.state, w.events).Ok?
    ensures var run := Fold(ld.state, w.events).value.run;
            && v'.history == v.history + w.events && v'.run.status == run.status && v'.run.input == run.input
            && v'.run.output == run.output && v'.run.workflowName == v.run.workflowName
                 && v'.run.createdAt == v.run.createdAt
            && v'.run.updatedAt == env.now && ld.state.run.output == v.run.output
    ensures w.events != [] && forall i :: 0 <= i < |w.events| ==> w.events[i].createdAt == env.now
  {
    hide LoadedOk, Execute, Fold, Inv, LegalFrom, Committed, Tracked, Fresh, Mutated;
  }

  /** A cancel request is recorded by the command it was sent with, and by no other. */
  lemma CancelEvents(ld: Loaded, req: Request, events: seq<Event>, mutations: seq<Mutation>)
    requires WritesOnly(ld, req, events, mutations)
    ensures events != [] && (req.CancelRequest? ==> events[0].payload == RunCancelRequested(req.reason))
    ensures !req.CancelRequest? ==> !events[0].payload.RunCancelRequested?
    ensures forall i :: 1 <= i < |events| ==> !events[i].payload.RunCancelRequested?
  {
    hide Touches;
    forall i | 1 <= i < |events| ensures !events[i].payload.RunCancelRequested? {
      assert Consequent(events[i]);
    }
  }

  lemma CommandReasons(v: View, v': View, env: Env, ld: Loaded, req: Request, w: Work)
    requires CommandStep(v, v', env, ld, req, w)
    ensures ld.state.run.cancelReason == v.run.cancelReason && Execute(env, ld, req).Append?
    ensures v'.run.cancelReason == Execute(env, ld, req).run.cancelReason
  {
    hide LoadedOk, Execute, Final, Mutated, Replay;
  }

  lemma CommandReason(v: View, v': View, env: Env, ld: Loaded, req: Request, w: Work)
    requires CommandStep(v, v', env, ld, req, w) && v.run.cancelReason == LastReason(v.history)
    ensures v'.run.cancelReason == LastReason(v.history + w.events)
  {
    hide CommandStep, WritesOnly, Execute, IsFinalFailure, LastReason;
    CommandWrites(v, v', env, ld, req, w);
    CommandReasons(v, v', env, ld, req, w);
    CancelEvents(ld, req, w.events, w.mutations);
    SummaryTexts(env, ld, req);
    if req.CancelRequest? {
      ReasonSet(v.history, w.events, req.reason);
    } else {
      ReasonStays(v.history, w.events);
    }
  }

  lemma NoSecondStart(ld: Loaded, req: Request, events: seq<Event>, mutations: seq<Mutation>)
    requires WritesOnly(ld, req, events, mutations)
    ensures forall i :: 0 <= i < |events| ==> !events[i].payload.WorkflowStarted?
  {
    hide Touches;
    forall i | 0 <= i < |events| ensures !events[i].payload.WorkflowStarted? {
      if i > 0 { assert Consequent(events[i]); }
    }
  }

  lemma {:induction false} OutputAppears(s: RunState, events: seq<Event>)
    requires Fold(s, events).Ok?
    ensures Fold(s, events).value.run.output == s.run.output
            || exists i :: 0 <= i < |events| && events[i].payload.RunCompleted?
  {
    hide ApplyCore;
    if events != [] {
      var init := events[..|events| - 1];
      OutputAppears(s, init);
      if i :| 0 <= i < |init| && init[i].payload.RunCompleted? { assert events[i] == init[i]; }
      assert events[|events| - 1].payload.RunCompleted?
             || Fold(s, events).value.run.output == Fold(s, init).value.run.output;
    }
  }

  lemma OutputTold(h: seq<Event>, more: seq<Event>, s: RunState)
    requires Fold(s, more).Ok?
    requires s.run.output.Some? ==> exists i :: 0 <= i < |h| && h[i].payload.RunCompleted?
    ensures Fold(s, more).value.run.output.Some?
            ==> exists i :: 0 <= i < |h + more| && (h + more)[i].payload.RunCompleted?
  {
    OutputAppears(s, more);
    hide Fold;
    if i :| 0 <= i < |h| && h[i].payload.RunCompleted? {
      assert (h + more)[i] == h[i];
    } else if i :| 0 <= i < |more| && more[i].payload.RunCompleted? {
      assert (h + more)[|h| + i] == more[i];
    }
  }

  lemma CommandTells(v: View, v': View, env: Env, ld: Loaded, req: Request, w: Work)
    requires CommandStep(v, v', env, ld, req, w) && RunTold(v)
    ensures RunTold(v')
  {
    CommandReason(v, v', env, ld, req, w) by { hide CommandStep; }
    CommandReplaysRun(v, v', env, ld, req, w) by { hide CommandStep, RunTold; }
    CommandWrites(v, v', env, ld, req, w) by { hide CommandStep, WritesOnly, RunTold; }
    NoSecondStart(ld, req, w.events, w.mutations) by { hide CommandStep, RunTold; }
    hide CommandStep, Fold, WritesOnly, LastReason;
    ReplayedStatus(Initial(ld.def, ld.run), ld.events) by { hide RunTold, LastStatus; }
    ReplayedStatus(ld.state, w.events) by { hide RunTold, LastStatus; }
    LastStatusConcat(v.history, w.events) by { hide RunTold; }
    ReplayedStart(Initial(ld.def, ld.run), ld.events);
    ReplayedInput(ld.state, w.events) by { hide RunTold; }
    OutputTold(v.history, w.events, ld.state);
    hide LastStatus;
    assert v'.history[0] == v.history[0] && v'.history[|v'.history| - 1] == w.events[|w.events| - 1];
  }

  lemma RunToldByCommands()
    ensures KeptByCommands(v => RunTold(v))
  {
    hide CommandStep, RunTold;
    forall v, v', env, ld, req, w {:trigger CommandStep(v, v', env, ld, req, w)}
      | RunTold(v) && CommandStep(v, v', env, ld, req, w) ensures RunTold(v')
    {
      CommandTells(v, v', env, ld, req, w);
    }
  }

  /** What a new run consists of. */
  lemma StartedHistory(env: Env, def: Definition, input: Json, w: Work)
    requires StartWork(env, def, input) == Ok(w)
    ensures w.events != [] && w.events[0] == StartedEvent(env, def.name, NormalizeJson(input))
    ensures forall i :: 1 <= i < |w.events| ==> Consequent(w.events[i])
  {
    hide ScheduleForwardReady, Fold, Consequent, Touches;
    var started, run := StartedEvent(env, def.name, NormalizeJson(input)), NewRun(env, def.name, NormalizeJson(input));
    var w0 := Work(Replay(def, run, [started]).value, 2, [started], []);
    ReadyFollows(env, w0, def.order, None);
    assert w.events[0] == w0.events[0];
  }

  lemma {:induction false} StatusOfStart(events: seq<Event>)
    requires events != [] && events[0].payload.WorkflowStarted?
    requires forall i :: 1 <= i < |events| ==> StatusGiven(events[i].payload).None?
    ensures LastStatus(events) == Some(Running)
  {
    if |events| > 1 { StatusOfStart(events[..|events| - 1]); }
  }

  lemma StartTells(env: Env, def: Definition, input: Json, w: Work)
    requires StartStep(env, def, input, w)
    ensures RunTold(StartView(env, def, input, w))
  {
    assert StartWork(env, def, input) == Ok(w) by { hide StartWork, ValidDefinition, Fresh; }
    StartedHistory(env, def, input, w) by { hide StartStep; }
    StartedTimes(env, def, input, w) by { hide StartStep; }
    ReadyGivesNoStatus(env, def, input, w) by { hide StartStep; }
    hide StartStep, StartWork, Mutated, Consequent;
    NewRunTold(StartView(env, def, input, w), env, def, input);
  }

  lemma NewRunTold(v: View, env: Env, def: Definition, input: Json)
    requires v.history != [] && v.history[0] == StartedEvent(env, def.name, NormalizeJson(input))
    requires v.run == NewRun(env, def.name, NormalizeJson(input)).(version := |v.history|)
    requires forall i :: 0 <= i < |v.history| ==> v.history[i].createdAt == env.now
    requires forall i :: 1 <= i < |v.history| ==> StatusGiven(v.history[i].payload).None?
    ensures RunTold(v)
  {
    StatusOfStart(v.history);
    ReasonStays([], v.history);
    assert [] + v.history == v.history;
    hide LastStatus, LastReason;
    assert forall i :: 1 <= i < |v.history| ==> !v.history[i].payload.WorkflowStarted?;
  }

  lemma StartedTimes(env: Env, def: Definition, input: Json, w: Work)
    requires StartStep(env, def, input, w)
    ensures forall i :: 0 <= i < |w.events| ==> w.events[i].createdAt == env.now
  {
    hide StartWork, ValidDefinition, Fresh, Inv, LegalFrom, Fold, Committed, Tracked;
    StartWorkFinal(env, def, input);
  }

  lemma ReadyGivesNoStatus(env: Env, def: Definition, input: Json, w: Work)
    requires StartWork(env, def, input) == Ok(w)
    ensures w.events != [] && forall i :: 1 <= i < |w.events| ==> StatusGiven(w.events[i].payload).None?
  {
    hide ScheduleForwardReady, Fold;
    var started, run := StartedEvent(env, def.name, NormalizeJson(input)), NewRun(env, def.name, NormalizeJson(input));
    ReadyOnlySchedules(env, Work(Replay(def, run, [started]).value, 2, [started], []), def.order);
  }

  lemma {:induction false} ReadyOnlySchedules(env: Env, w: Work, list: seq<StepId>)
    requires ScheduleForwardReady(env, w, list).Ok?
    ensures var w' := ScheduleForwardReady(env, w, list).value;
            w.events <= w'.events && forall i :: |w.events| <= i < |w'.events| ==> w'.events[i].payload.TaskScheduled?
  {
    hide Apply, Ready, NewTask;
    if list != [] { ReadyOnlySchedules(env, w, list[..|list| - 1]); }
  }

  lemma RunToldAtStart()
    ensures HoldsAtStart(v => RunTold(v))
  {
    hide StartStep, RunTold;
    forall env, def, input, w {:trigger StartStep(env, def, input, w)} | StartStep(env, def, input, w)
      ensures RunTold(StartView(env, def, input, w))
    {
      StartTells(env, def, input, w);
    }
  }

  /** In every reachable store workflow, input, status, cancel reason and times of a run row are those its history
      tells, and a run has no output before it has completed. */
  lemma RunRowIsTold(defs: Definitions, ops: seq<Op>, r: RunId)
    requires Registered(defs) && r in Exec(defs, ops).runs
    ensures RunTold(ViewOf(Exec(defs, ops), r))
  {
    hide Exec, Registered, KeptByStore, KeptByCommands, HoldsAtStart, RunTold;
    RunToldByStore();
    RunToldByCommands();
    RunToldAtStart();
    EveryView(defs, ops, r, v => RunTold(v));
  }

  // ------------------------------------------------------------------ what is scheduled

  /** Going forward, exactly the steps whose dependencies have all completed have been scheduled. */
  lemma ReadyAreScheduled(defs: Definitions, ops: seq<Op>, r: RunId, x: StepId)
    requires Registered(defs) && r in Exec(defs, ops).runs && Exec(defs, ops).runs[r].status.Running?
    requires Exec(defs, ops).runs[r].workflowName in defs && x in defs[Exec(defs, ops).runs[r].workflowName].steps
    ensures var db := Exec(defs, ops);
            var step, h := defs[db.runs[r].workflowName].steps[x], HistoryOf(db.history, r);
            x in ScheduledSteps(h, false) <==>
              forall k :: 0 <= k < |step.dependencies| ==> step.dependencies[k] in CompletedSteps(h)
  {
    hide Exec, ViewOk, StateOf, Inv, Committed, RowsAgree, ValidDefinition, Replay, LegalFrom, ScheduledSteps,
         CompletedSteps,
         CompletedOutputs;
    var def, v, s := Reach(defs, ops, r);
    Facts(def, v);
    ReplayCompletes(def, v.history);
    CompletionOrder(def, v.history);
    ReplaySchedules(def, v.history, x, false);
    ReadyExactly(def, v.run.status, s, x);
  }

  lemma ReadyExactly(def: Definition, status: RunStatus, s: Core, x: StepId)
    requires Inv(def, s) && Committed(status, s) && status.Running? && x in def.steps
    ensures IsScheduled(s, x, false) <==> DependenciesCompleted(def.steps[x], s.outputs)
  {
    hide OrderOk, TaskOk, NextCompensation, HasOpen, AllCompleted;
    assert StepOk(def, s, x);
  }

  /** A run is started exactly under a new id and for a workflow there is. Its row and its first event say what was
      asked for, and exactly the steps without dependencies are scheduled. */
  lemma StartBegins(defs: Definitions, ops: seq<Op>, op: Op)
    requires Registered(defs) && op.Start? && Allowed(Exec(defs, ops), op)
    ensures var db, db', r := Exec(defs, ops), Exec(defs, ops + [op]), op.runId;
            && (Perform(defs, db, op).Ok? <==> op.workflow in defs && r !in db.runs)
            && (op.workflow in defs && r !in db.runs ==>
                  && r in db'.runs
                  && var run, h := db'.runs[r], HistoryOf(db'.history, r);
                  var recorded := if op.input == Raw("") then Null else op.input;
                  && run.workflowName == op.workflow && run.input == recorded && run.createdAt == op.now
                  && run.status.Running? && run.output.None? && run.failure == "" && run.cancelReason == ""
                  && h != [] && h[0].payload == WorkflowStarted(op.workflow, recorded)
                  && ScheduledSteps(h, true) == []
                  && forall x :: x in defs[op.workflow].steps ==>
                       (x in ScheduledSteps(h, false) <==> defs[op.workflow].steps[x].dependencies == []))
  {
    hide Exec, Registered, DbOk, Launch, StartWork, ViewOk, RowsOf, Mutated, ScheduledSteps, CompletedSteps;
    var db, db', r := Exec(defs, ops), Exec(defs, ops + [op]), op.runId;
    ReachableOk(defs, ops);
    ExecSnoc(defs, ops, op);
    if Perform(defs, db, op).Ok? { LaunchHolds(defs, db, r, op.workflow, op.input, op.now, op.uuid); }
    if op.workflow in defs && r !in db.runs {
      var env, def := Env(r, op.now, op.uuid), defs[op.workflow];
      var w := LaunchAdds(defs, db, r, op.workflow, op.input, op.now, op.uuid);
      assert ViewOf(db', r).run == StartedRow(env, def, op.input, w) && ViewOf(db', r).history == w.events;
      StartedHistory(env, def, op.input, w);
      OnlyForward(env, def, op.input, w);
      forall x | x in def.steps
        ensures x in ScheduledSteps(w.events, false) <==> def.steps[x].dependencies == []
      {
        ReadyAreScheduled(defs, ops + [op], r, x);
        assert |def.steps[x].dependencies| > 0 ==> def.steps[x].dependencies[0] !in CompletedSteps(w.events);
      }
    }
  }

  lemma OnlyForward(env: Env, def: Definition, input: Json, w: Work)
    requires StartWork(env, def, input) == Ok(w)
    ensures ScheduledSteps(w.events, true) == [] && CompletedSteps(w.events) == []
  {
    StartedHistory(env, def, input, w);
    hide ScheduleForwardReady, Fold;
    var started, run := StartedEvent(env, def.name, NormalizeJson(input)), NewRun(env, def.name, NormalizeJson(input));
    var w0 := Work(Replay(def, run, [started]).value, 2, [started], []);
    assert [started][..0] == [];
    ReadyForwardOnly(env, w0, def.order);
  }

  lemma {:induction false} ReadyForwardOnly(env: Env, w: Work, list: seq<StepId>)
    requires ScheduleForwardReady(env, w, list).Ok?
    requires ScheduledSteps(w.events, true) == [] && CompletedSteps(w.events) == []
    ensures var w' := ScheduleForwardReady(env, w, list).value;
            ScheduledSteps(w'.events, true) == [] && CompletedSteps(w'.events) == []
  {
    hide Apply, Ready, NewTask;
    if list != [] {
      var init, x := list[..|list| - 1], list[|list| - 1];
      ReadyForwardOnly(env, w, init);
      var w1, w2 := ScheduleForwardReady(env, w, init).value, ScheduleForwardReady(env, w, list).value;
      if Ready(w1.state.core, x) {
        ScheduledForward(env, w1, w1.state.core.steps[x].definition);
        assert w2.events[..|w2.events| - 1] == w1.events;
      }
    }
  }

  lemma ScheduledForward(env: Env, w: Work, step: Step)
    requires Schedule(env, w, step, Forward).Ok?
    ensures var w' := Schedule(env, w, step, Forward).value;
            && |w'.events| == |w.events| + 1 && w'.events[..|w.events|] == w.events
            && w'.events[|w.events|].payload.TaskScheduled? && !w'.events[|w.events|].payload.compensation
  {
    hide Apply;
  }
}
