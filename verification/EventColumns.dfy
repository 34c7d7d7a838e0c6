/** The step and the task that the columns of an event name. */
module EventColumns {
  import opened Prelude
  import opened Workflow
  import opened History
  import opened Engine
  import opened Reducer
  import opened Commands
  import opened Tracking
  import opened Tables
  import opened Settled
  import opened Invariant
  import opened Chronicle
  import opened Runs
  import opened System
  import opened Operations
  import opened CommandProofs
  import opened CancelProofs
  import opened Footprint
  import opened Steps
  import opened TaskRows
  import opened RunRows

  /** A heartbeat does not say which step it belongs to, so its column must. */
  predicate ColumnsAgree(tasks: map<TaskId, TaskRecord>, e: Event) {
    && Headed(e)
    && (e.payload.TaskHeartbeat? ==> e.payload.taskId in tasks && e.stepId == tasks[e.payload.taskId].stepId)
  }

  predicate AllColumnsAgree(v: View) {
    forall i :: 0 <= i < |v.history| ==> ColumnsAgree(v.tasks, v.history[i])
  }

  /** No task has left its step. */
  ghost predicate KeepsSteps(tasks: map<TaskId, TaskRecord>, tasks': map<TaskId, TaskRecord>) {
    forall k :: k in tasks ==> k in tasks' && tasks'[k].stepId == tasks[k].stepId
  }

  lemma ColumnsStay(tasks: map<TaskId, TaskRecord>, tasks': map<TaskId, TaskRecord>, e: Event)
    requires KeepsSteps(tasks, tasks') && ColumnsAgree(tasks, e)
    ensures ColumnsAgree(tasks', e)
  {
    hide Headed;
  }

  lemma ColumnsOfMore(v: View, v': View, more: seq<Event>)
    requires AllColumnsAgree(v) && KeepsSteps(v.tasks, v'.tasks) && v'.history == v.history + more
    requires forall i :: 0 <= i < |more| ==> ColumnsAgree(v'.tasks, more[i])
    ensures AllColumnsAgree(v')
  {
    hide ColumnsAgree, KeepsSteps;
    forall i | 0 <= i < |v'.history| ensures ColumnsAgree(v'.tasks, v'.history[i]) {
      if i < |v.history| {
        assert v'.history[i] == v.history[i];
        ColumnsStay(v.tasks, v'.tasks, v.history[i]);
      } else {
        assert v'.history[i] == more[i - |v.history|];
      }
    }
  }

  lemma StoreStepColumns(v: View, v': View, id: TaskId, e: Event)
    requires StoreStep(v, v', id, e)
    ensures KeepsSteps(v.tasks, v'.tasks) && v'.history == v.history + [e] && ColumnsAgree(v'.tasks, e)
  {
  }

  lemma ColumnsKeptByStore()
    ensures KeptByStore(v => AllColumnsAgree(v))
  {
    hide AllColumnsAgree, ColumnsAgree, StoreStep, KeepsSteps;
    forall v, v', id, e {:trigger StoreStep(v, v', id, e)} | AllColumnsAgree(v) && StoreStep(v, v', id, e)
      ensures AllColumnsAgree(v')
    {
      StoreStepColumns(v, v', id, e);
      ColumnsOfMore(v, v', [e]);
    }
  }

  lemma WrittenColumns(ld: Loaded, req: Request, events: seq<Event>, mutations: seq<Mutation>,
                       tasks: map<TaskId, TaskRecord>)
    requires WritesOnly(ld, req, events, mutations)
    ensures forall i :: 0 <= i < |events| ==> ColumnsAgree(tasks, events[i])
  {
    hide Touches, Headed;
    forall i | 0 <= i < |events| ensures ColumnsAgree(tasks, events[i]) {
      if i > 0 { assert Consequent(events[i]); }
    }
  }

  lemma CommandKeepsSteps(v: View, v': View, env: Env, ld: Loaded, req: Request, w: Work)
    requires CommandStep(v, v', env, ld, req, w)
    ensures KeepsSteps(v.tasks, v'.tasks)
  {
    hide CommandStep, HeldIn, AllProper, BooksOf, Mutated;
    CommandBooks(v, v', env, ld, req, w);
    MutatedKeepsRows(v.tasks, w.mutations);
    forall k | k in v.tasks ensures k in v'.tasks && v'.tasks[k].stepId == v.tasks[k].stepId {
      MutatedHolds(v.tasks, env, w.events, w.mutations, k);
    }
  }

  lemma ColumnsKeptByCommands()
    ensures KeptByCommands(v => AllColumnsAgree(v))
  {
    hide AllColumnsAgree, ColumnsAgree, CommandStep, KeepsSteps, WritesOnly, Mutated;
    forall v, v', env, ld, req, w {:trigger CommandStep(v, v', env, ld, req, w)}
      | AllColumnsAgree(v) && CommandStep(v, v', env, ld, req, w) ensures AllColumnsAgree(v')
    {
      CommandWrites(v, v', env, ld, req, w);
      CommandKeepsSteps(v, v', env, ld, req, w);
      WrittenColumns(ld, req, w.events, w.mutations, v'.tasks);
      ColumnsOfMore(v, v', w.events);
    }
  }

  lemma ColumnsAtStart()
    ensures HoldsAtStart(v => AllColumnsAgree(v))
  {
    hide StartStep, AllColumnsAgree;
    forall env, def, input, w {:trigger StartStep(env, def, input, w)} | StartStep(env, def, input, w)
      ensures AllColumnsAgree(StartView(env, def, input, w))
    {
      StartColumns(env, def, input, w);
    }
  }

  lemma StartColumns(env: Env, def: Definition, input: Json, w: Work)
    requires StartStep(env, def, input, w)
    ensures AllColumnsAgree(StartView(env, def, input, w))
  {
    assert StartWork(env, def, input) == Ok(w) by { hide StartWork, ValidDefinition, Fresh; }
    StartedHistory(env, def, input, w) by { hide StartStep; }
    hide StartStep, StartWork, Mutated;
    var v := StartView(env, def, input, w);
    forall i | 0 <= i < |v.history| ensures ColumnsAgree(v.tasks, v.history[i]) {
      if i > 0 { assert Consequent(v.history[i]); }
    }
  }

  /** In every reachable store the columns of every event name its run, and the step and task its payload is about. */
  lemma EventsNameTheirTask(defs: Definitions, ops: seq<Op>, r: RunId, i: nat)
    requires Registered(defs) && r in Exec(defs, ops).runs && i < |HistoryOf(Exec(defs, ops).history, r)|
    ensures var db := Exec(defs, ops);
            var e := HistoryOf(db.history, r)[i];
            && e.runId == r && e.sequence == i + 1
            && if AboutRun(e.payload) then e.stepId == "" && e.taskId.None?
               else
                 && e.taskId == Some(e.payload.taskId)
                 && (!e.payload.TaskHeartbeat? ==> e.stepId == e.payload.stepId)
                 && (e.payload.TaskHeartbeat? ==>
                       e.payload.taskId in db.tasks && e.stepId == db.tasks[e.payload.taskId].stepId)
  {
    hide Exec, Registered, RowsOf, KeptByStore, KeptByCommands, HoldsAtStart, DbOk;
    ColumnsKeptByStore() by { hide AllColumnsAgree; }
    ColumnsKeptByCommands() by { hide AllColumnsAgree; }
    ColumnsAtStart() by { hide AllColumnsAgree; }
    EveryView(defs, ops, r, v => AllColumnsAgree(v)) by { hide AllColumnsAgree; }
    var db := Exec(defs, ops);
    ReachableOk(defs, ops);
    HistoryOfRun(defs, db, r);
    assert ColumnsAgree(ViewOf(db, r).tasks, ViewOf(db, r).history[i]);
    assert forall k :: k in RowsOf(db.tasks, r) ==> k in db.tasks && RowsOf(db.tasks, r)[k] == db.tasks[k] by {
      RowsAreRows(db, r);
    }
  }

  lemma HistoryOfRun(defs: Definitions, db: Db, r: RunId)
    requires DbOk(defs, db) && r in db.runs
    ensures Numbered(HistoryOf(db.history, r)) && OfRun(HistoryOf(db.history, r), r)
  {
    hide Inv, Committed, RowsAgree, Replay;
    assert RunOk(defs, db, r);
  }

  lemma RowsAreRows(db: Db, r: RunId)
    ensures forall k :: k in RowsOf(db.tasks, r) ==> k in db.tasks && RowsOf(db.tasks, r)[k] == db.tasks[k]
  {
  }
}
