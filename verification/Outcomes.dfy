/** What a run ends with: the outputs of its steps and the time of its completion. */
module Outcomes {
  import opened Prelude
  import opened Workflow
  import opened History
  import opened Engine
  import opened Reducer
  import opened Invariant
  import opened Chronicle
  import opened Commands
  import opened Tracking
  import opened Settled
  import opened CommandProofs
  import opened Tables
  import opened Runs
  import opened System
  import opened Operations
  import opened Histories
  import opened Guarantees
  import opened Footprint
  import opened Steps

  /** Once every step has completed, no event makes any difference to steps going forward. */
  lemma CompletedStays(def: Definition, s: Core, e: Event)
    requires Inv(def, s) && Legal(s, e) && AllCompleted(s) && ApplyCore(s, e).Ok?
    ensures AllCompleted(ApplyCore(s, e).value) && ApplyCore(s, e).value.outputs == s.outputs
  {
    if IsMove(e.payload) {
      NoForwardMove(def, s, e);
      hide Inv, Legal, ApplyCore;
      MoveMoves(def, s, e);
    } else if e.payload.TaskScheduled? {
      AllScheduled(def, s, e);
      hide Inv, ApplyCore;
      SchedulingEvent(s, e);
      ScheduledKeepsForward(s, e) by { hide Legal; }
      hide Legal;
    } else {
      assert !e.payload.TaskLeaseExpired?;
      hide Inv, Legal, ApplyCore;
      QuietEvent(s, e);
    }
  }

  lemma NoForwardMove(def: Definition, s: Core, e: Event)
    requires Inv(def, s) && Legal(s, e) && AllCompleted(s) && IsMove(e.payload)
    ensures e.payload.taskId in s.tasks && s.tasks[e.payload.taskId].phase.Compensation?
  {
    hide OrderOk, StepOk, LatestEligible, BackoffForAttempt;
    if e.payload.TimerFired? { TimerIsForward(def, s, e.payload.taskId) by { hide Inv; } }
    assert TaskOk(s, e.payload.taskId);
  }

  lemma AllScheduled(def: Definition, s: Core, e: Event)
    requires Inv(def, s) && Legal(s, e) && AllCompleted(s) && e.payload.TaskScheduled?
    ensures e.payload.compensation
  {
    hide OrderOk, TaskOk, LatestEligible, DependenciesCompleted, FitsStep;
    assert StepOk(def, s, e.payload.stepId);
  }

  lemma ScheduledKeepsForward(s: Core, e: Event)
    requires e.payload.TaskScheduled? && e.payload.compensation && ApplyCore(s, e).Ok? && e.payload.stepId in s.steps
    ensures ApplyCore(s, e).value.steps[e.payload.stepId].forwardStatus == s.steps[e.payload.stepId].forwardStatus
  {
  }

  /** A run that replays as completed says so because of its last such event, which carries the outputs of all its
      steps. */
  lemma {:induction false} ReplayedOutput(def: Definition, run: RunRecord, events: seq<Event>)
    requires LegalFrom(InitialCore(def), events) && Replay(def, run, events).Ok?
    requires |events| >= 1 && events[0].payload.WorkflowStarted?
    ensures Replay(def, run, events).value.core == StateOf(def, events)
    ensures Replay(def, run, events).value.run.status.Completed? ==>
              && AllCompleted(StateOf(def, events))
              && Replay(def, run, events).value.run.output == Some(RunOutput(StateOf(def, events)))
  {
    hide Inv, Legal, ApplyCore, AllCompleted, RunOutput, StateOf, LegalFrom, InitialCore;
    var init, e := events[..|events| - 1], events[|events| - 1];
    ReplayIsState(def, run, events);
    if |events| > 1 {
      StateStep(def, events);
      ReplayedOutput(def, run, init);
      var r, s := Replay(def, run, init).value.run, StateOf(def, init);
      if e.payload.RunCompleted? {
        CompletesRun(s, e);
      } else if r.status.Completed? {
        CompletedStays(def, s, e);
        SameOutputs(s, StateOf(def, events));
      }
    }
  }

  lemma ReplayIsState(def: Definition, run: RunRecord, events: seq<Event>)
    requires Replay(def, run, events).Ok?
    ensures Replay(def, run, events).value.core == StateOf(def, events)
  {
    hide ApplyCore, ApplyRun, InitialCore;
    FoldIsCoreFold(Initial(def, run), events);
  }

  lemma CompletesRun(s: Core, e: Event)
    requires e.payload.RunCompleted? && Legal(s, e) && ApplyCore(s, e).Ok?
    ensures AllCompleted(ApplyCore(s, e).value) && e.payload.output == RunOutput(ApplyCore(s, e).value)
  {
  }

  lemma SameOutputs(s: Core, s': Core)
    requires s'.outputs == s.outputs
    ensures RunOutput(s') == RunOutput(s)
  {
  }

  /** A completed run's output maps every step to what its completion event carried, and nothing else. */
  lemma CompletedOutput(defs: Definitions, ops: seq<Op>, r: RunId)
    requires Registered(defs) && r in Exec(defs, ops).runs && Exec(defs, ops).runs[r].status.Completed?
    ensures var db := Exec(defs, ops);
            && db.runs[r].workflowName in defs
            && var outputs := CompletedOutputs(HistoryOf(db.history, r));
            && db.runs[r].output == Some(Object(outputs))
            && outputs.Keys == defs[db.runs[r].workflowName].steps.Keys
  {
    hide Exec, StateOf, Inv, Committed, RowsAgree, Replay, LegalFrom, ValidDefinition, CompletedSteps,
         CompletedOutputs, ViewOk, RunOutput;
    var def, v, s := Reach(defs, ops, r);
    Facts(def, v);
    BeginsWithStart(def, v);
    ReplayedOutput(def, v.run, v.history);
    ReplayCompletes(def, v.history);
    CompletedStatus(def, v.run.status, s);
    OutputKeys(def, s);
    NonEmptyOutput(def, s);
  }

  lemma BeginsWithStart(def: Definition, v: View)
    requires ViewOk(def, v)
    ensures |v.history| >= 1 && v.history[0].payload.WorkflowStarted?
  {
    hide Inv, Committed, LegalFrom, Replay, RowsAgree;
  }

  lemma OutputKeys(def: Definition, s: Core)
    requires Inv(def, s) && forall x :: x in def.steps ==> x in s.outputs
    ensures s.outputs.Keys == def.steps.Keys
  {
    hide StepOk, TaskOk;
  }

  lemma NonEmptyOutput(def: Definition, s: Core)
    requires ValidDefinition(def) && s.outputs.Keys == def.steps.Keys
    ensures RunOutput(s) == Object(s.outputs)
  {
    assert def.order[0] in def.order;
    assert def.order[0] in s.outputs;
  }

  // ------------------------------------------------------------------ the time of completion

  /** The event closes the run. */
  predicate Finishes(p: Payload) {
    p.RunCompleted? || p.RunFailed? || p.RunCancelled?
  }

  /** When the run was last closed. */
  function LastFinish(events: seq<Event>): Option<Time> {
    if |events| == 0 then None
    else if Finishes(events[|events| - 1].payload) then Some(events[|events| - 1].createdAt)
    else LastFinish(events[..|events| - 1])
  }

  lemma {:induction false} LastFinishConcat(events: seq<Event>, more: seq<Event>)
    ensures LastFinish(events + more) == if LastFinish(more).Some? then LastFinish(more) else LastFinish(events)
  {
    if more == [] {
      assert events + more == events;
    } else {
      LastFinishConcat(events, more[..|more| - 1]);
      assert (events + more)[..|events + more| - 1] == events + more[..|more| - 1];
      assert (events + more)[|events + more| - 1] == more[|more| - 1];
    }
  }

  /** A terminal run has a completion time. */
  predicate Stamped(run: RunRecord) {
    run.status.Terminal() ==> run.completedAt.Some?
  }

  /** Replay takes the completion time from the last closing event, and only in its absence from the record it starts
      with. */
  lemma {:induction false} ReplayedFinish(s: RunState, events: seq<Event>)
    requires Fold(s, events).Ok? && Stamped(s.run)
    ensures var run := Fold(s, events).value.run;
            && Stamped(run)
            && run.completedAt == if LastFinish(events).Some? then LastFinish(events) else s.run.completedAt
  {
    hide ApplyCore;
    if events != [] { ReplayedFinish(s, events[..|events| - 1]); }
  }

  predicate FinishOk(v: View) {
    Stamped(v.run) && v.run.completedAt == LastFinish(v.history)
  }

  lemma FinishKeptByStore()
    ensures KeptByStore(v => FinishOk(v))
  {
    forall v, v', id, e {:trigger StoreStep(v, v', id, e)} | FinishOk(v) && StoreStep(v, v', id, e)
        ensures FinishOk(v') {
      assert v'.history[..|v'.history| - 1] == v.history;
    }
  }

  lemma CommandFinish(v: View, v': View, env: Env, ld: Loaded, req: Request, w: Work)
    requires CommandStep(v, v', env, ld, req, w) && FinishOk(v)
    ensures FinishOk(v')
  {
    CommandReplays(v, v', env, ld, req, w);
    hide CommandStep, Fold;
    ReplayedFinish(Initial(ld.def, ld.run), ld.events);
    ReplayedFinish(ld.state, w.events);
    LastFinishConcat(v.history, w.events);
  }

  lemma CommandReplays(v: View, v': View, env: Env, ld: Loaded, req: Request, w: Work)
    requires CommandStep(v, v', env, ld, req, w)
    ensures ld.run == v.run && ld.events == v.history && Fold(Initial(ld.def, ld.run), ld.events) == Ok(ld.state)
    ensures Fold(ld.state, w.events).Ok?
    ensures var run := Fold(ld.state, w.events).value.run;
            && v'.history == v.history + w.events && v'.run.status == run.status
            && (run.completedAt.Some? || !run.status.Terminal() ==> v'.run.completedAt == run.completedAt)
  {
    hide LoadedOk, Execute, Fold, Inv, LegalFrom, Committed, Tracked, Fresh, Mutated;
  }

  lemma FinishKeptByCommands()
    ensures KeptByCommands(v => FinishOk(v))
  {
    hide CommandStep, FinishOk;
    forall v, v', env, ld, req, w {:trigger CommandStep(v, v', env, ld, req, w)}
      | FinishOk(v) && CommandStep(v, v', env, ld, req, w) ensures FinishOk(v')
    {
      CommandFinish(v, v', env, ld, req, w);
    }
  }

  lemma {:induction false} NothingFinishes(events: seq<Event>)
    requires forall i :: 0 <= i < |events| ==> !Finishes(events[i].payload)
    ensures LastFinish(events).None?
  {
    if events != [] { NothingFinishes(events[..|events| - 1]); }
  }

  lemma {:induction false} ReadyFinishesNothing(env: Env, w: Work, list: seq<StepId>)
    requires ScheduleForwardReady(env, w, list).Ok? && LastFinish(w.events).None?
    ensures LastFinish(ScheduleForwardReady(env, w, list).value.events).None?
  {
    hide Apply, Ready, NewTask;
    if list != [] {
      var init, x := list[..|list| - 1], list[|list| - 1];
      ReadyFinishesNothing(env, w, init);
      var w1, w2 := ScheduleForwardReady(env, w, init).value, ScheduleForwardReady(env, w, list).value;
      if Ready(w1.state.core, x) { assert w2.events[..|w2.events| - 1] == w1.events; }
    }
  }

  lemma FinishHoldsAtStart()
    ensures HoldsAtStart(v => FinishOk(v))
  {
    hide ValidDefinition, Fresh, ScheduleForwardReady, Fold;
    forall env, def, input, w {:trigger StartStep(env, def, input, w)} | StartStep(env, def, input, w)
      ensures FinishOk(StartView(env, def, input, w))
    {
      var started, run := StartedEvent(env, def.name, NormalizeJson(input)),
          NewRun(env, def.name, NormalizeJson(input));
      NothingFinishes([started]);
      ReadyFinishesNothing(env, Work(Replay(def, run, [started]).value, 2, [started], []), def.order);
    }
  }

  /** In every reachable store the completion time of a run is the time of the last event that closed it, and a
      terminal run has one. */
  lemma CompletionTime(defs: Definitions, ops: seq<Op>, r: RunId)
    requires Registered(defs) && r in Exec(defs, ops).runs
    ensures var db := Exec(defs, ops);
            && db.runs[r].completedAt == LastFinish(HistoryOf(db.history, r))
            && (db.runs[r].status.Terminal() ==> db.runs[r].completedAt.Some?)
  {
    hide Exec, Registered, KeptByStore, KeptByCommands, HoldsAtStart, RowsOf;
    FinishKeptByStore();
    FinishKeptByCommands();
    FinishHoldsAtStart();
    EveryView(defs, ops, r, v => FinishOk(v));
  }
}
