/** When a run is at rest: exactly when it has no open task, whatever its status. */
module Rest {
  import opened Prelude
  import opened Workflow
  import opened History
  import opened Engine
  import opened Reducer
  import opened Invariant
  import opened Chronicle
  import opened Commands
  import opened Tracking
  import opened Settled
  import opened CommandProofs
  import opened Tables
  import opened Runs
  import opened System
  import opened Operations
  import opened Histories
  import opened Guarantees
  import opened Steps

  ghost predicate AtRest(db: Db, r: RunId) {
    forall id :: !OpenRow(db, r, id)
  }

  predicate SameRun(db: Db, db': Db, r: RunId) {
    r in db.runs && r in db'.runs && ViewOf(db', r) == ViewOf(db, r)
  }

  lemma SameRunStaysAtRest(db: Db, db': Db, r: RunId)
    requires SameRun(db, db', r) && AtRest(db, r)
    ensures AtRest(db', r)
  {
    forall id ensures !OpenRow(db', r, id) {
      if OpenRow(db', r, id) {
        assert id in ViewOf(db', r).tasks;
        assert id in ViewOf(db, r).tasks;
        assert OpenRow(db, r, id);
      }
    }
  }

  /** On a run without open tasks every request is turned down or does nothing. */
  lemma IdleExecute(env: Env, ld: Loaded, req: Request)
    requires LoadedOk(env, ld) && NoOpenTask(ld.state.core)
    requires (req.CompleteRequest? || req.FailRequest?) && req.task in ld.state.core.tasks ==>
               ld.state.core.tasks[req.task].kind.Activity?
    ensures !Execute(env, ld, req).Append?
  {
    hide CompleteWork, FailEvent, FinalFailureWork, RetryWork, CancelWork, FireWork, Inv, Committed, RowsAgree, Fresh,
         ValidDefinition, Retries;
    if !req.CancelRequest? && req.task in ld.state.core.tasks {
      assert !Open(ld.state.core, req.task);
    }
    if !ld.run.status.Terminal() {
      NoDeadlock(ld.def, ld.state.run.status, ld.state.core);
    }
  }

  lemma AtRestMeansNoOpenTask(env: Env, db: Db, ld: Loaded)
    requires LoadedOk(env, ld) && ld.tasks == RowsOf(db.tasks, env.runId) && AtRest(db, env.runId)
    ensures NoOpenTask(ld.state.core)
  {
    hide Inv, Committed, Fresh, ValidDefinition;
    forall id ensures !Open(ld.state.core, id) {
      if id in ld.state.core.tasks {
        assert RowAt(ld.state.core.tasks, ld.tasks, env.runId, id);
        assert !OpenRow(db, env.runId, id);
      }
    }
  }

  /** So no command appends anything to it. */
  lemma NoSubmission(defs: Definitions, db: Db, op: Op, r: RunId)
    requires Registered(defs) && DbOk(defs, db) && r in db.runs && AtRest(db, r)
    ensures !SubmitsTo(defs, db, op, r)
  {
    hide Registered, DbOk, Enabled, Execute, RowsOf, LoadedOk, AtRest, Continues, Load, Command, Write;
    if SubmitsTo(defs, db, op, r) {
      var env := Env(r, op.now, op.uuid);
      LoadedParts(defs, db, r, op.listing);
      var ld, w := CommandCommits(defs, db, op.req, op.listing, op.now, op.uuid);
      AtRestMeansNoOpenTask(env, db, ld);
      EnabledParts(db, op.req, op.listing, op.uuid);
      ActsOnActivity(env, db, ld, op.req);
      IdleExecute(env, ld, op.req);
    }
  }

  /** And there is nothing to lease or to renew. */
  lemma NoStoreStep(db: Db, r: RunId, v': View, id: TaskId, e: Event)
    requires r in db.runs && AtRest(db, r)
    ensures !StoreStep(ViewOf(db, r), v', id, e)
  {
    assert !OpenRow(db, r, id);
  }

  /** Nothing that is done to the store changes a run without open tasks. */
  lemma RestIsFinal(defs: Definitions, db: Db, op: Op, r: RunId)
    requires Registered(defs) && DbOk(defs, db) && r in db.runs && AtRest(db, r)
    ensures SameRun(db, Next(defs, db, op), r)
  {
    hide Registered, DbOk, Next, AtRest, ViewOf, SubmitsTo, StoreStep;
    var P := (x: View) => x == ViewOf(db, r);
    assert KeptByStore(P) by {
      forall v', id, e ensures !StoreStep(ViewOf(db, r), v', id, e) { NoStoreStep(db, r, v', id, e); }
    }
    NoSubmission(defs, db, op, r);
    OtherOpKeeps(defs, db, op, r, P);
  }

  // ------------------------------------------------------------------ and only such a run is final

  /** An operation that would move task `id` on. */
  ghost predicate Awaits(db: Db, id: TaskId, op: Op)
    requires id in db.tasks
  {
    var row := db.tasks[id];
    if row.status.Leased? then op.Heartbeat? && op.task == id && op.worker == row.leaseOwner
    else if row.kind.Activity? then
      op.Lease? && op.ids == [id] && op.queue == row.queue && row.availableAt <= op.now
    else op.Submit? && op.req == FireRequest(id) && Allowed(db, op) && row.availableAt <= op.now
  }

  lemma LeaseAwaited(defs: Definitions, db: Db, r: RunId, id: TaskId, op: Op)
    requires DbOk(defs, db) && OpenRow(db, r, id) && r in db.runs && Awaits(db, id, op)
    requires db.tasks[id].status.Available? && db.tasks[id].kind.Activity?
    ensures Changes(defs, db, op, r)
  {
    hide DbOk, RowsOf, RunOk, LeaseOne;
    LeaseOneAdvances(defs, db, id, op.worker, op.ttl, op.now) by { hide Awaits; }
    assert Selected(db, op.queue, [id], op.limit, op.now);
    assert op.ids[..0] == [] && op.ids[|op.ids| - 1] == id;
    assert LeaseTasks(db, op.ids, op.worker, op.ttl, op.now) == LeaseOne(db, id, op.worker, op.ttl, op.now);
    hide Frames;
  }

  predicate VersionRises(db: Db, db': Db, r: RunId) {
    r in db.runs && r in db'.runs && db.runs[r].version < db'.runs[r].version
  }

  ghost predicate Changes(defs: Definitions, db: Db, op: Op, r: RunId) {
    VersionRises(db, Next(defs, db, op), r)
  }

  lemma HeartbeatAwaited(defs: Definitions, db: Db, r: RunId, id: TaskId, op: Op)
    requires DbOk(defs, db) && OpenRow(db, r, id) && r in db.runs && Awaits(db, id, op) && db.tasks[id].status.Leased?
    ensures Changes(defs, db, op, r)
  {
    hide DbOk, RowsOf, RunOk, HeartbeatTask;
    HeartbeatAdvances(defs, db, id, op.worker, op.extendBy, op.now);
    hide Frames;
  }

  lemma TimerAwaited(defs: Definitions, db: Db, r: RunId, id: TaskId, op: Op)
    requires Registered(defs) && DbOk(defs, db) && OpenRow(db, r, id) && r in db.runs && Awaits(db, id, op)
    requires db.tasks[id].status.Available? && !db.tasks[id].kind.Activity? && db.tasks[id].kind.Timer?
    ensures Changes(defs, db, op, r)
  {
    var env := Env(r, op.now, op.uuid);
    assert Locate(db, op.req) == Ok(r);
    assert Enabled(db, op.req, op.listing, op.uuid);
    hide Registered, DbOk, Enabled, Load, Write, RowsOf, LoadedOk, Execute, Awaits, Command, Continues, Changes,
         Allowed;
    var ld, w := CommandCommits(defs, db, op.req, op.listing, op.now, op.uuid);
    LoadedTasks(defs, db, r, op.listing);
    TimerIsDue(env, db, ld, id);
    TimerFires(env, ld, id);
    CommitChanges(defs, db, op, env, ld, w);
  }

  lemma CommitChanges(defs: Definitions, db: Db, op: Op, env: Env, ld: Loaded, w: Work)
    requires op.Submit? && Allowed(db, op) && Command(defs, db, op.req, op.listing, op.now, op.uuid).Ok?
    requires Continues(defs, db, Command(defs, db, op.req, op.listing, op.now, op.uuid).value, env, ld,
                       Execute(env, ld, op.req), w)
    ensures Changes(defs, db, op, env.runId)
  {
    hide Command, Execute, Enabled, Frames, RunOk, Commits, ViewOf;
  }

  lemma TimerIsDue(env: Env, db: Db, ld: Loaded, id: TaskId)
    requires LoadedOk(env, ld) && ld.tasks == RowsOf(db.tasks, env.runId) && OpenRow(db, env.runId, id)
    requires db.tasks[id].status.Available? && db.tasks[id].kind.Timer? && db.tasks[id].availableAt <= env.now
    ensures TimerDue(ld, id, env.now)
  {
    hide Inv, Committed, Fresh, ValidDefinition;
    assert id in ld.tasks;
    assert RowAt(ld.state.core.tasks, ld.tasks, env.runId, id);
  }

  lemma TimerFires(env: Env, ld: Loaded, id: TaskId)
    requires LoadedOk(env, ld) && TimerDue(ld, id, env.now)
    ensures Execute(env, ld, FireRequest(id)).Append?
  {
    hide LoadedOk, FireWork, Final;
    FireWorkFinal(env, ld, id);
  }

  lemma OpenRowIsSupported(defs: Definitions, db: Db, r: RunId, id: TaskId)
    requires Registered(defs) && DbOk(defs, db) && r in db.runs && OpenRow(db, r, id)
    ensures db.tasks[id].kind.Activity? || db.tasks[id].kind.Timer?
  {
    RunOfTask(defs, db, id) by { hide DbOk, RunOk; }
    RunOkView(defs, db, r) by { hide DbOk, RunOk, ViewOk; }
    var def, v := defs[db.runs[r].workflowName], ViewOf(db, r);
    assert ValidDefinition(def) by { hide DbOk, RunOk, ValidDefinition; }
    hide DbOk, RunOk, Registered;
    Facts(def, v) by { hide ViewOk; }
    hide ViewOk, Replay, LegalFrom, StateOf, Committed;
    SupportedKind(def, StateOf(def, v.history), id) by { hide ValidDefinition, Inv; }
    assert RowAt(StateOf(def, v.history).tasks, v.tasks, v.run.id, id);
  }

  lemma SupportedKind(def: Definition, s: Core, id: TaskId)
    requires ValidDefinition(def) && Inv(def, s)
    ensures id in s.tasks ==> !s.tasks[id].kind.Unsupported?
  {
    if id in s.tasks {
      assert TaskOk(s, id);
      assert StepOk(def, s, s.tasks[id].stepId);
    }
  }

  /** A task that is open is moved on by the operation it waits for, and the run's version rises: also in a failed
      run. */
  lemma OpenTaskMoves(defs: Definitions, db: Db, r: RunId, id: TaskId, op: Op)
    requires Registered(defs) && DbOk(defs, db) && r in db.runs && OpenRow(db, r, id) && Awaits(db, id, op)
    ensures Changes(defs, db, op, r)
  {
    hide Registered, DbOk, Awaits, Changes;
    OpenRowIsSupported(defs, db, r, id);
    if db.tasks[id].status.Leased? {
      HeartbeatAwaited(defs, db, r, id, op);
    } else if db.tasks[id].kind.Activity? {
      LeaseAwaited(defs, db, r, id, op);
    } else {
      TimerAwaited(defs, db, r, id, op);
    }
  }

  /** Whatever an open task waits for can be done. */
  lemma AwaitedExists(db: Db, r: RunId, id: TaskId) returns (op: Op)
    requires OpenRow(db, r, id) && (!db.tasks[id].kind.Activity? ==> db.tasks[id].kind.Timer?)
    ensures Awaits(db, id, op)
  {
    var row := db.tasks[id];
    if row.status.Leased? {
      op := Heartbeat(id, row.leaseOwner, 0, 0);
    } else if row.kind.Activity? {
      op := Lease(row.queue, "", 1, [id], 0, row.availableAt);
    } else {
      op := Submission(db, FireRequest(id), row.availableAt);
    }
  }

  /** No operation whatever makes any difference to the run. */
  ghost predicate Immovable(defs: Definitions, db: Db, r: RunId) {
    forall op :: SameRun(db, Next(defs, db, op), r)
  }

  /** A run is final exactly when it has no open task, whatever its status says. */
  lemma FinalExactly(defs: Definitions, db: Db, r: RunId)
    requires Registered(defs) && DbOk(defs, db) && r in db.runs
    ensures AtRest(db, r) <==> Immovable(defs, db, r)
  {
    hide Registered, DbOk, Next, Awaits, ViewOf, OpenRow, AtRest;
    if AtRest(db, r) {
      forall op ensures SameRun(db, Next(defs, db, op), r) { RestIsFinal(defs, db, op, r); }
    } else {
      var id := SomeOpenRow(db, r);
      OpenRowIsSupported(defs, db, r, id);
      var op := AwaitedExists(db, r, id);
      OpenTaskMoves(defs, db, r, id, op);
      RisenIsNotSame(db, Next(defs, db, op), r);
    }
  }

  lemma SomeOpenRow(db: Db, r: RunId) returns (id: TaskId)
    requires !AtRest(db, r)
    ensures OpenRow(db, r, id)
  {
    id :| OpenRow(db, r, id);
  }

  lemma RisenIsNotSame(db: Db, db': Db, r: RunId)
    requires VersionRises(db, db', r)
    ensures !SameRun(db, db', r)
  {
  }

  // ------------------------------------------------------------------ over whole runs of the system

  /** A run without open tasks keeps its rows, its history and its version whatever is done afterwards. */
  lemma {:induction false} RestForever(defs: Definitions, ops: seq<Op>, more: seq<Op>, r: RunId)
    requires Registered(defs) && r in Exec(defs, ops).runs && AtRest(Exec(defs, ops), r)
    ensures SameRun(Exec(defs, ops), Exec(defs, ops + more), r) && AtRest(Exec(defs, ops + more), r)
  {
    hide Registered, AtRest, ViewOf, Next, Exec;
    if more == [] {
      assert ops + more == ops;
    } else {
      var init := more[..|more| - 1];
      RestForever(defs, ops, init, r);
      ReachableOk(defs, ops + init);
      ExecMore(defs, ops, more);
      RestIsFinal(defs, Exec(defs, ops + init), more[|more| - 1], r);
      SameRunStaysAtRest(Exec(defs, ops + init), Exec(defs, ops + more), r);
    }
  }

  lemma CompletedOrCancelledRests(defs: Definitions, ops: seq<Op>, r: RunId)
    requires Registered(defs) && r in Exec(defs, ops).runs
    requires Exec(defs, ops).runs[r].status.Completed? || Exec(defs, ops).runs[r].status.Cancelled?
    ensures AtRest(Exec(defs, ops), r)
  {
    hide Exec, ViewOk, StateOf, Inv, Committed, RowsAgree, ValidDefinition, Replay, LegalFrom, RowsOf, OpenRow, Open;
    var def, v, s := Reach(defs, ops, r);
    Facts(def, v);
    CompletedStatus(def, v.run.status, s);
    forall id ensures !OpenRow(Exec(defs, ops), r, id) {
      OpenRowIsOpen(Exec(defs, ops), r, s, v, id);
    }
  }

  /** Completed and cancelled runs are absorbing: no later operation of any kind appends to them. */
  lemma Absorbing(defs: Definitions, ops: seq<Op>, more: seq<Op>, r: RunId)
    requires Registered(defs) && r in Exec(defs, ops).runs
    requires Exec(defs, ops).runs[r].status.Completed? || Exec(defs, ops).runs[r].status.Cancelled?
    ensures SameRun(Exec(defs, ops), Exec(defs, ops + more), r)
  {
    hide AtRest, Exec, ViewOf;
    CompletedOrCancelledRests(defs, ops, r);
    RestForever(defs, ops, more, r);
  }

  // ------------------------------------------------------------------ what a heartbeat can tell a worker

  /** The reply to a heartbeat never says that the run is being cancelled: whenever it could, the heartbeat has
      failed. */
  lemma HeartbeatNeverSignals(defs: Definitions, ops: seq<Op>, id: TaskId, worker: string, extendBy: int, now: Time)
    requires Registered(defs) && HeartbeatTask(Exec(defs, ops), id, worker, extendBy, now).Ok?
    ensures var db := Exec(defs, ops);
            id in db.tasks && db.tasks[id].runId in db.runs && !CancelSignal(db, id)
  {
    hide Exec, Registered, DbOk, RunOk, ViewOk, StateOf, Committed, AtRest;
    var db := Exec(defs, ops);
    HeartbeatHolds(db, id, worker, extendBy, now);
    ReachableOk(defs, ops);
    RunOfTask(defs, db, id);
    var r := db.tasks[id].runId;
    assert OpenRow(db, r, id);
    var def, v, s := Reach(defs, ops, r);
    Facts(def, v) by { hide Inv, RowsAgree, LegalFrom, Replay; }
    NeverCancelling(v.run.status, s);
    if db.runs[r].status.Cancelled? {
      CompletedOrCancelledRests(defs, ops, r);
      StillOpen(db, r, id);
    }
  }

  lemma StillOpen(db: Db, r: RunId, id: TaskId)
    requires OpenRow(db, r, id)
    ensures !AtRest(db, r)
  {
  }

  lemma NeverCancelling(status: RunStatus, s: Core)
    requires Committed(status, s)
    ensures !status.Cancelling?
  {
  }

  /** After a cancel request the worker of a forward task learns of it by losing the lease. */
  lemma CancelTakesTheLease(defs: Definitions, ops: seq<Op>, id: TaskId, worker: string, extendBy: int, now: Time)
    requires Registered(defs) && id in Exec(defs, ops).tasks && Exec(defs, ops).tasks[id].phase.Forward?
    requires CancelledBy(HistoryOf(Exec(defs, ops).history, Exec(defs, ops).tasks[id].runId))
    ensures HeartbeatTask(Exec(defs, ops), id, worker, extendBy, now) == Err(TaskLeaseLost)
  {
    hide Exec, Registered, DbOk, RunOk, CancelledBy, HistoryOf;
    var db := Exec(defs, ops);
    ReachableOk(defs, ops);
    RunOfTask(defs, db, id);
    AfterCancel(defs, ops, db.tasks[id].runId);
    assert !OpenRow(db, db.tasks[id].runId, id);
    hide AppendNumbered;
  }
}
