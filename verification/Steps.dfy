/** What one operation on the store means for one run, and induction over everything a run can go through. */
module Steps {
  import opened Prelude
  import opened Workflow
  import opened History
  import opened Engine
  import opened Reducer
  import opened Invariant
  import opened Chronicle
  import opened Commands
  import opened Tracking
  import opened Settled
  import opened CommandProofs
  import opened CancelProofs
  import opened Tables
  import opened Runs
  import opened System
  import opened Operations
  import opened Footprint

  // ------------------------------------------------------------------ what can happen to a run

  /** What a lease or a heartbeat, recorded by `e`, makes of the row of task `id`. */
  predicate RowStep(row: TaskRecord, row': TaskRecord, id: TaskId, e: Event) {
    match e.payload
    case TaskLeased(k, x, worker, attempt, expiresAt) =>
      && k == id && x == row.stepId && attempt == row.attempt && row.status.Available?
      && row' == LeasedRow(row, worker, expiresAt, e.createdAt)
    case TaskHeartbeat(k, worker, expiresAt) =>
      && k == id && row.status.Leased? && row.leaseOwner == worker
      && row' == row.(heartbeatAt := Some(e.createdAt), leaseExpiresAt := Some(expiresAt), updatedAt := e.createdAt)
    case _ => false
  }

  /** One lease or heartbeat of task `id`, recorded by `e`. */
  predicate StoreStep(v: View, v': View, id: TaskId, e: Event) {
    && id in v.tasks && id in v'.tasks && v'.tasks == v.tasks[id := v'.tasks[id]]
    && v'.history == v.history + [e] && e.taskId == Some(id) && e.stepId == v.tasks[id].stepId
    && v'.run == v.run.(version := |v'.history|, updatedAt := e.createdAt)
    && RowStep(v.tasks[id], v'.tasks[id], id, e)
  }

  /** One command: it loaded `ld`, and the work `w` that it did has been committed. */
  ghost predicate CommandStep(v: View, v': View, env: Env, ld: Loaded, req: Request, w: Work) {
    && LoadedOk(env, ld) && Replay(ld.def, ld.run, ld.events) == Ok(ld.state)
    && ld.run == v.run && ld.events == v.history && ld.tasks == v.tasks && SummaryMatches(ld.run, ld.state.run)
    && ((req.CompleteRequest? || req.FailRequest?) && req.task in ld.state.core.tasks ==>
          ld.state.core.tasks[req.task].kind.Activity?)
    && Commits(env, ld, Execute(env, ld, req), w)
    && v' == Committing(v, Execute(env, ld, req).run, w.events, w.mutations)
  }

  /** A run has just been started with the work `w`. */
  ghost predicate StartStep(env: Env, def: Definition, input: Json, w: Work) {
    ValidDefinition(def) && Fresh(env, map[], 2) && StartWork(env, def, input) == Ok(w)
  }

  function StartView(env: Env, def: Definition, input: Json, w: Work): View {
    View(StartedRow(env, def, input, w), w.events, Mutated(map[], w.mutations))
  }

  ghost predicate KeptByStore(P: View -> bool) {
    forall v, v', id, e {:trigger StoreStep(v, v', id, e)} :: P(v) && StoreStep(v, v', id, e) ==> P(v')
  }

  ghost predicate KeptByCommands(P: View -> bool) {
    forall v, v', env, ld, req, w {:trigger CommandStep(v, v', env, ld, req, w)} ::
      P(v) && CommandStep(v, v', env, ld, req, w) ==> P(v')
  }

  ghost predicate HoldsAtStart(P: View -> bool) {
    forall env, def, input, w {:trigger StartStep(env, def, input, w)} ::
      StartStep(env, def, input, w) ==> P(StartView(env, def, input, w))
  }

  // ------------------------------------------------------------------ commands

  /** The operation is a command on run `r` that appends something. */
  ghost predicate SubmitsTo(defs: Definitions, db: Db, op: Op, r: RunId) {
    && op.Submit? && Allowed(db, op) && Locate(db, op.req) == Ok(r)
    && Load(defs, db, r, op.listing).Ok?
    && Execute(Env(r, op.now, op.uuid), Load(defs, db, r, op.listing).value, op.req).Append?
  }

  /** What it loads. */
  function LoadOf(defs: Definitions, db: Db, op: Op, r: RunId): Loaded
    requires op.Submit? && Load(defs, db, r, op.listing).Ok?
  {
    Load(defs, db, r, op.listing).value
  }

  lemma LoadedParts(defs: Definitions, db: Db, r: RunId, listing: seq<TaskId>)
    requires Load(defs, db, r, listing).Ok?
    ensures var ld := Load(defs, db, r, listing).value;
            && r in db.runs && ld.tasks == RowsOf(db.tasks, r) && ld.run == db.runs[r] && ld.listing == listing
            && ld.events == HistoryOf(db.history, r) && Replay(ld.def, ld.run, ld.events) == Ok(ld.state)
            && ld.run.workflowName in defs && ld.def == defs[ld.run.workflowName]
  {
    hide RowsOf, Fold;
  }

  /** What was loaded replays to the summary of the run row. */
  lemma LoadedSummary(defs: Definitions, db: Db, r: RunId, listing: seq<TaskId>)
    requires DbOk(defs, db) && Load(defs, db, r, listing).Ok?
    ensures SummaryMatches(db.runs[r], Load(defs, db, r, listing).value.state.run)
  {
    LoadedParts(defs, db, r, listing) by { hide DbOk, Load; }
    assert RunOk(defs, db, r) by { hide RunOk, Load; }
    RunOkView(defs, db, r) by { hide DbOk, RunOk, ViewOk, Load; }
    hide DbOk, RunOk, Load, Inv, Committed, LegalFrom, RowsAgree, Fold, SummaryMatches;
  }

  lemma EnabledParts(db: Db, req: Request, listing: seq<TaskId>, uuid: nat -> TaskId)
    requires Enabled(db, req, listing, uuid)
    ensures Admissible(db, req)
  {
    hide NewIds, Lists;
  }

  lemma SubmitStep(defs: Definitions, db: Db, op: Op, r: RunId) returns (w: Work)
    requires Registered(defs) && DbOk(defs, db) && SubmitsTo(defs, db, op, r)
    ensures Perform(defs, db, op).Ok? && r in db.runs && r in Next(defs, db, op).runs
    ensures CommandStep(ViewOf(db, r), ViewOf(Next(defs, db, op), r), Env(r, op.now, op.uuid),
                        LoadOf(defs, db, op, r), op.req, w)
  {
    hide Registered, DbOk, Enabled, Execute, LoadFrom, RowsOf, LoadedOk, Commits, RunOk, Frames, Write;
    var env := Env(r, op.now, op.uuid);
    var ld;
    LoadedParts(defs, db, r, op.listing);
    ld, w := CommandCommits(defs, db, op.req, op.listing, op.now, op.uuid);
    LoadedSummary(defs, db, r, op.listing);
    EnabledParts(db, op.req, op.listing, op.uuid);
    ActsOnActivity(env, db, ld, op.req);
    hide Load, Command;
  }

  lemma LoadedRowFiled(env: Env, ld: Loaded, id: TaskId)
    requires LoadedOk(env, ld) && id in ld.state.core.tasks
    ensures RowFiled(ld, id)
  {
    hide Inv, Committed, Fresh, ValidDefinition;
    assert RowAt(ld.state.core.tasks, ld.tasks, env.runId, id);
  }

  /** What a command adds to a run: the event it was asked for and what follows from it. */
  lemma CommandWrites(v: View, v': View, env: Env, ld: Loaded, req: Request, w: Work)
    requires CommandStep(v, v', env, ld, req, w)
    ensures WritesOnly(ld, req, w.events, w.mutations)
    ensures v'.history == v.history + w.events && v'.tasks == Mutated(v.tasks, w.mutations)
  {
    hide LoadedOk, Execute, Final, WritesOnly, Mutated;
    if !req.CancelRequest? && req.task in ld.state.core.tasks { LoadedRowFiled(env, ld, req.task); }
    ExecuteWrites(env, ld, req);
  }

  // ------------------------------------------------------------------ leases and heartbeats

  lemma RecordedStep(db: Db, q: RunId, id: TaskId, row: TaskRecord, e: Event, r: RunId)
    requires q in db.runs && r in db.runs && id in db.tasks && db.tasks[id].runId == q && row.runId == q
    requires e.taskId == Some(id) && e.stepId == db.tasks[id].stepId && RowStep(db.tasks[id], row, id, e)
    ensures var v, v' := ViewOf(db, r), ViewOf(Recorded(db, q, id, row, e), r);
            v' == v || exists e :: StoreStep(v, v', id, e)
  {
    hide RowStep;
    RecordedView(db, q, id, row, e);
    hide Recorded;
    if r == q {
      assert StoreStep(ViewOf(db, r), ViewOf(Recorded(db, q, id, row, e), r), id, e);
    }
  }

  lemma LeaseRowStep(db: Db, q: RunId, id: TaskId, worker: string, ttl: int, now: Time)
    requires q in db.runs && id in db.tasks && db.tasks[id].runId == q && db.tasks[id].status.Available?
    ensures id in ViewOf(db, q).tasks
    ensures var e := LeaseEvent(ViewOf(db, q), id, worker, ttl, now);
            e.taskId == Some(id) && e.stepId == db.tasks[id].stepId
              && RowStep(db.tasks[id], LeasedRow(db.tasks[id], worker, now + ttl, now), id, e)
  {
  }

  lemma HeartbeatRowStep(db: Db, q: RunId, id: TaskId, worker: string, extendBy: int, now: Time)
    requires q in db.runs && id in db.tasks && db.tasks[id].runId == q
    requires db.tasks[id].status.Leased? && db.tasks[id].leaseOwner == worker
    ensures id in ViewOf(db, q).tasks
    ensures var e := HeartbeatEvent(ViewOf(db, q), id, worker, extendBy, now);
            e.taskId == Some(id) && e.stepId == db.tasks[id].stepId
              && RowStep(db.tasks[id], RenewedRow(db.tasks[id], extendBy, now), id, e)
  {
  }

  lemma LeaseStep(defs: Definitions, db: Db, id: TaskId, worker: string, ttl: int, now: Time, r: RunId)
    requires DbOk(defs, db) && r in db.runs
    requires id in db.tasks && db.tasks[id].status.Available? ==>
               db.tasks[id].kind.Activity? && db.tasks[id].availableAt < now + SECOND
    ensures LeaseOne(db, id, worker, ttl, now).Ok? && r in LeaseOne(db, id, worker, ttl, now).value.runs
    ensures var v, v' := ViewOf(db, r), ViewOf(LeaseOne(db, id, worker, ttl, now).value, r);
            v' == v || exists e :: StoreStep(v, v', id, e)
  {
    if id in db.tasks && db.tasks[id].status.Available? {
      hide DbOk, RunOk, LeaseOne, Advances, RowsOf, StoreStep, RowStep, LeaseEvent, Recorded, ViewOf;
      LeaseOneAdvances(defs, db, id, worker, ttl, now);
      var q := db.tasks[id].runId;
      LeaseRowStep(db, q, id, worker, ttl, now);
      var e, row := LeaseEvent(ViewOf(db, q), id, worker, ttl, now), LeasedRow(db.tasks[id], worker, now + ttl, now);
      RecordedStep(db, q, id, row, e, r);
    }
  }

  lemma HeartbeatStep(defs: Definitions, db: Db, id: TaskId, worker: string, extendBy: int, now: Time, r: RunId)
    requires DbOk(defs, db) && r in db.runs && HeartbeatTask(db, id, worker, extendBy, now).Ok?
    ensures r in HeartbeatTask(db, id, worker, extendBy, now).value.runs
    ensures var v, v' := ViewOf(db, r), ViewOf(HeartbeatTask(db, id, worker, extendBy, now).value, r);
            v' == v || exists e :: StoreStep(v, v', id, e)
  {
    HeartbeatHolds(db, id, worker, extendBy, now) by { hide DbOk; }
    hide DbOk, RunOk, HeartbeatTask, Advances, RowsOf, StoreStep, RowStep, HeartbeatEvent, Recorded, ViewOf;
    HeartbeatAdvances(defs, db, id, worker, extendBy, now);
    var q := db.tasks[id].runId;
    HeartbeatRowStep(db, q, id, worker, extendBy, now);
    var e, row := HeartbeatEvent(ViewOf(db, q), id, worker, extendBy, now), RenewedRow(db.tasks[id], extendBy, now);
    RecordedStep(db, q, id, row, e, r);
  }

  lemma LeaseOneKeeps(defs: Definitions, db: Db, id: TaskId, worker: string, ttl: int, now: Time, r: RunId,
                      P: View -> bool)
    requires DbOk(defs, db) && r in db.runs && KeptByStore(P) && P(ViewOf(db, r))
    requires id in db.tasks && db.tasks[id].status.Available? ==>
               db.tasks[id].kind.Activity? && db.tasks[id].availableAt < now + SECOND
    ensures LeaseOne(db, id, worker, ttl, now).Ok? && r in LeaseOne(db, id, worker, ttl, now).value.runs
    ensures P(ViewOf(LeaseOne(db, id, worker, ttl, now).value, r))
  {
    hide DbOk, LeaseOne, StoreStep, ViewOf;
    LeaseStep(defs, db, id, worker, ttl, now, r);
  }

  lemma {:induction false} LeaseTasksKeep(defs: Definitions, db: Db, queue: string, limit: int, ids: seq<TaskId>,
                                          worker: string, ttl: int, now: Time, r: RunId, P: View -> bool)
    requires DbOk(defs, db) && r in db.runs && KeptByStore(P) && P(ViewOf(db, r))
             && Selected(db, queue, ids, limit, now)
    ensures LeaseTasks(db, ids, worker, ttl, now).Ok? && r in LeaseTasks(db, ids, worker, ttl, now).value.runs
    ensures P(ViewOf(LeaseTasks(db, ids, worker, ttl, now).value, r))
  {
    hide DbOk, Evolves, LeaseOne, KeptByStore, ViewOf;
    if ids != [] {
      var init, id := ids[..|ids| - 1], ids[|ids| - 1];
      assert forall i {:trigger init[i]} :: 0 <= i < |init| ==> init[i] == ids[i];
      LeaseTasksEvolves(defs, db, queue, limit, init, worker, ttl, now);
      LeaseTasksKeep(defs, db, queue, limit, init, worker, ttl, now, r, P);
      assert id !in init && Selectable(db, queue, id, now);
      LeaseOneKeeps(defs, LeaseTasks(db, init, worker, ttl, now).value, id, worker, ttl, now, r, P);
    }
  }

  // ------------------------------------------------------------------ any operation

  lemma CommandElsewhere(defs: Definitions, db: Db, op: Op, r: RunId)
    requires Registered(defs) && DbOk(defs, db) && r in db.runs && op.Submit? && Allowed(db, op)
             && Perform(defs, db, op).Ok?
    requires !SubmitsTo(defs, db, op, r)
    ensures r in Next(defs, db, op).runs && ViewOf(Next(defs, db, op), r) == ViewOf(db, r)
  {
    hide Registered, DbOk, Enabled, Execute, LoadFrom, RowsOf, LoadedOk, Commits, RunOk;
    var env := Env(Locate(db, op.req).value, op.now, op.uuid);
    var ld, w := CommandCommits(defs, db, op.req, op.listing, op.now, op.uuid);
    if Execute(env, ld, op.req).Append? {
      hide Command, Load, Write, ViewOf;
      assert env.runId != r;
    }
  }

  /** An operation that is no command on a run leases or renews at most, or does nothing to it. */
  lemma OtherOpKeeps(defs: Definitions, db: Db, op: Op, r: RunId, P: View -> bool)
    requires Registered(defs) && DbOk(defs, db) && r in db.runs && KeptByStore(P) && P(ViewOf(db, r))
    requires !SubmitsTo(defs, db, op, r)
    ensures r in Next(defs, db, op).runs && P(ViewOf(Next(defs, db, op), r))
  {
    hide Registered, DbOk, Launch, LeaseTasks, HeartbeatTask, Command, NewIds, Selected, Enabled, SubmitsTo, ViewOf,
         KeptByStore;
    if Allowed(db, op) && Perform(defs, db, op).Ok? {
      match op
      case Start(runId, workflow, input, now, uuid) => LaunchElsewhere(defs, db, runId, workflow, input, now, uuid, r);
      case Lease(queue, worker, limit, ids, ttl, now) => LeaseTasksKeep(defs, db, queue, limit, ids, worker, ttl, now,
                                                                        r, P);
      case Heartbeat(task, worker, extendBy, now) => HeartbeatKeeps(defs, db, task, worker, extendBy, now, r, P);
      case Submit(_, _, _, _) => CommandElsewhere(defs, db, op, r);
    }
  }

  lemma HeartbeatKeeps(defs: Definitions, db: Db, id: TaskId, worker: string, extendBy: int, now: Time, r: RunId,
                       P: View -> bool)
    requires DbOk(defs, db) && r in db.runs && KeptByStore(P) && P(ViewOf(db, r))
    requires HeartbeatTask(db, id, worker, extendBy, now).Ok?
    ensures r in HeartbeatTask(db, id, worker, extendBy, now).value.runs
    ensures P(ViewOf(HeartbeatTask(db, id, worker, extendBy, now).value, r))
  {
    hide DbOk, HeartbeatTask, StoreStep, ViewOf;
    HeartbeatStep(defs, db, id, worker, extendBy, now, r);
  }

  lemma LaunchElsewhere(defs: Definitions, db: Db, runId: RunId, workflow: string, input: Json, now: Time,
                        uuid: nat -> TaskId, r: RunId)
    requires Registered(defs) && DbOk(defs, db) && NewIds(db, uuid) && r in db.runs
    requires Launch(defs, db, runId, workflow, input, now, uuid).Ok?
    ensures var db' := Launch(defs, db, runId, workflow, input, now, uuid).value;
            r in db'.runs && ViewOf(db', r) == ViewOf(db, r)
  {
    LaunchHolds(defs, db, runId, workflow, input, now, uuid) by { hide DbOk, Registered; }
    hide DbOk, Registered, NewIds, StartWork, ViewOk, Launch, StartedRow, RowsOf, Mutated, HistoryOf;
    var w := LaunchAdds(defs, db, runId, workflow, input, now, uuid);
    hide ViewOf;
    assert r in Launch(defs, db, runId, workflow, input, now, uuid).value.runs;
  }

  /** A run that is there after an operation and was not before has just been started. */
  lemma NewRunStarts(defs: Definitions, db: Db, op: Op, r: RunId, P: View -> bool)
    requires Registered(defs) && DbOk(defs, db) && r !in db.runs && r in Next(defs, db, op).runs && HoldsAtStart(P)
    ensures P(ViewOf(Next(defs, db, op), r))
  {
    hide Registered, DbOk, Launch, LeaseTasks, HeartbeatTask, Command, NewIds, Selected, Enabled, ViewOf, HoldsAtStart;
    match op
    case Start(runId, workflow, input, now, uuid) => LaunchStarts(defs, db, runId, workflow, input, now, uuid, r, P);
    case Lease(queue, worker, limit, ids, ttl, now) => LeaseTasksKeepRuns(db, ids, worker, ttl, now);
    case Heartbeat(task, worker, extendBy, now) => HeartbeatKeepsRuns(db, task, worker, extendBy, now);
    case Submit(req, listing, now, uuid) => CommandKeepsRuns(defs, db, req, listing, now, uuid);
  }

  lemma LaunchStarts(defs: Definitions, db: Db, runId: RunId, workflow: string, input: Json, now: Time,
                     uuid: nat -> TaskId, r: RunId, P: View -> bool)
    requires Registered(defs) && DbOk(defs, db) && NewIds(db, uuid) && r !in db.runs && HoldsAtStart(P)
    requires Launch(defs, db, runId, workflow, input, now, uuid).Ok?
    requires r in Launch(defs, db, runId, workflow, input, now, uuid).value.runs
    ensures P(ViewOf(Launch(defs, db, runId, workflow, input, now, uuid).value, r))
  {
    LaunchHolds(defs, db, runId, workflow, input, now, uuid) by { hide DbOk, Registered, HoldsAtStart; }
    FreshStart(db, Env(runId, now, uuid)) by { hide DbOk, Registered, HoldsAtStart; }
    assert ValidDefinition(defs[workflow]) by { hide DbOk, HoldsAtStart, ValidDefinition; }
    hide DbOk, Registered, NewIds, Fresh, ValidDefinition, StartWork, ViewOk, Launch, StartedRow, RowsOf, Mutated,
         HistoryOf;
    var w := LaunchAdds(defs, db, runId, workflow, input, now, uuid);
    hide ViewOf;
    assert runId == r;
    assert StartStep(Env(runId, now, uuid), defs[workflow], input, w);
  }

  lemma LeaseOneKeepsRuns(db: Db, id: TaskId, worker: string, ttl: int, now: Time)
    requires LeaseOne(db, id, worker, ttl, now).Ok?
    ensures LeaseOne(db, id, worker, ttl, now).value.runs.Keys == db.runs.Keys
  {
    hide InsertEvent;
  }

  lemma {:induction false} LeaseTasksKeepRuns(db: Db, ids: seq<TaskId>, worker: string, ttl: int, now: Time)
    requires LeaseTasks(db, ids, worker, ttl, now).Ok?
    ensures LeaseTasks(db, ids, worker, ttl, now).value.runs.Keys == db.runs.Keys
  {
    hide LeaseOne;
    if ids != [] {
      LeaseTasksKeepRuns(db, ids[..|ids| - 1], worker, ttl, now);
      LeaseOneKeepsRuns(LeaseTasks(db, ids[..|ids| - 1], worker, ttl, now).value, ids[|ids| - 1], worker, ttl, now);
    }
  }

  lemma HeartbeatKeepsRuns(db: Db, id: TaskId, worker: string, extendBy: int, now: Time)
    requires HeartbeatTask(db, id, worker, extendBy, now).Ok?
    ensures HeartbeatTask(db, id, worker, extendBy, now).value.runs.Keys == db.runs.Keys
  {
    hide InsertEvent;
  }

  lemma CommandKeepsRuns(defs: Definitions, db: Db, req: Request, listing: seq<TaskId>, now: Time, uuid: nat -> TaskId)
    requires Command(defs, db, req, listing, now, uuid).Ok?
    ensures Command(defs, db, req, listing, now, uuid).value.runs.Keys == db.runs.Keys
  {
    hide Execute, Load, InsertEvents, MutateTables, RunColumns;
  }

  // ------------------------------------------------------------------ induction over every run

  lemma NextKeepsView(defs: Definitions, db: Db, op: Op, r: RunId, P: View -> bool)
    requires Registered(defs) && DbOk(defs, db) && r in Next(defs, db, op).runs && (r in db.runs ==> P(ViewOf(db, r)))
    requires KeptByStore(P) && KeptByCommands(P) && HoldsAtStart(P)
    ensures P(ViewOf(Next(defs, db, op), r))
  {
    hide Registered, DbOk, Next, ViewOf, SubmitsTo, CommandStep, KeptByStore, HoldsAtStart;
    if r !in db.runs {
      NewRunStarts(defs, db, op, r, P);
    } else if SubmitsTo(defs, db, op, r) {
      SubmitIsLoaded(defs, db, op, r);
      var w := SubmitStep(defs, db, op, r);
    } else {
      OtherOpKeeps(defs, db, op, r, P);
    }
  }

  lemma SubmitIsLoaded(defs: Definitions, db: Db, op: Op, r: RunId)
    requires SubmitsTo(defs, db, op, r)
    ensures op.Submit? && Load(defs, db, r, op.listing).Ok?
  {
    hide Allowed, Execute, Load;
  }

  /** What holds of a run when it is started, and is kept by every lease, heartbeat and command, holds of every run
      that is reached. */
  lemma {:induction false} EveryView(defs: Definitions, ops: seq<Op>, r: RunId, P: View -> bool)
    requires Registered(defs) && KeptByStore(P) && KeptByCommands(P) && HoldsAtStart(P)
    requires r in Exec(defs, ops).runs
    ensures P(ViewOf(Exec(defs, ops), r))
  {
    hide Registered, Next, ViewOf, KeptByStore, KeptByCommands, HoldsAtStart, DbOk;
    if ops != [] {
      var init := ops[..|ops| - 1];
      if r in Exec(defs, init).runs { EveryView(defs, init, r, P); }
      ReachableOk(defs, init);
      NextKeepsView(defs, Exec(defs, init), ops[|ops| - 1], r, P);
    }
  }

  // ------------------------------------------------------------------ outside choices that are always possible

  lemma {:induction false} Bound(keys: set<TaskId>) returns (n: nat)
    ensures forall id :: id in keys ==> id < n
    decreases |keys|
  {
    if keys == {} {
      n := 0;
    } else {
      var id :| id in keys;
      var rest := Bound(keys - {id});
      n := if id < rest then rest else id + 1;
      assert forall k :: k in keys ==> k == id || k in keys - {id};
    }
  }

  lemma {:induction false} ListingOf(keys: set<TaskId>) returns (listing: seq<TaskId>)
    ensures NoDup(listing) && forall id :: id in listing <==> id in keys
    decreases |keys|
  {
    if keys == {} {
      listing := [];
    } else {
      var id :| id in keys;
      var rest := ListingOf(keys - {id});
      listing := rest + [id];
      assert forall k :: k in keys <==> k == id || k in keys - {id};
    }
  }

  lemma FreshIds(db: Db) returns (uuid: nat -> TaskId)
    ensures NewIds(db, uuid)
  {
    var n := Bound(db.tasks.Keys);
    uuid := k => n + k;
    var env := Env(0, 0, uuid);
    assert forall k: nat :: env.Id(k) == n + k;
  }

  /** Any request about something that exists can be submitted. */
  lemma Submission(db: Db, req: Request, now: Time) returns (op: Op)
    requires Locate(db, req).Ok? && Admissible(db, req)
    ensures op.Submit? && op.req == req && op.now == now && Allowed(db, op)
  {
    var uuid := FreshIds(db);
    var listing := ListingOf(RowsOf(db.tasks, Locate(db, req).value).Keys);
    op := Submit(req, listing, now, uuid);
    hide NewIds, RowsOf, NoDup;
  }

  // ------------------------------------------------------------------ later states

  lemma ExecMore(defs: Definitions, ops: seq<Op>, more: seq<Op>)
    requires more != []
    ensures Exec(defs, ops + more) == Next(defs, Exec(defs, ops + more[..|more| - 1]), more[|more| - 1])
  {
    hide Next;
    assert (ops + more)[..|ops + more| - 1] == ops + more[..|more| - 1];
  }

  lemma HistoryGrows(defs: Definitions, ops: seq<Op>, op: Op, r: RunId)
    requires Registered(defs) && r in Exec(defs, ops).runs
    ensures r in Exec(defs, ops + [op]).runs
    ensures HistoryOf(Exec(defs, ops).history, r) <= HistoryOf(Exec(defs, ops + [op]).history, r)
    ensures Exec(defs, ops + [op]).runs[r].workflowName == Exec(defs, ops).runs[r].workflowName
  {
    hide Exec, Registered, DbOk, Next, RowsOf, HistoryOf;
    ReachableOk(defs, ops);
    NextKeeps(defs, Exec(defs, ops), op);
    ExecSnoc(defs, ops, op);
    assert RunGrew(Exec(defs, ops), Next(defs, Exec(defs, ops), op), r, op.Heartbeat?);
  }

  /** Histories only grow, and no run and no task is lost. */
  lemma {:induction false} ExecGrows(defs: Definitions, ops: seq<Op>, more: seq<Op>, r: RunId)
    requires Registered(defs) && r in Exec(defs, ops).runs
    ensures r in Exec(defs, ops + more).runs
    ensures HistoryOf(Exec(defs, ops).history, r) <= HistoryOf(Exec(defs, ops + more).history, r)
    ensures Exec(defs, ops + more).runs[r].workflowName == Exec(defs, ops).runs[r].workflowName
  {
    hide Exec, Registered, Next, HistoryOf;
    if more == [] {
      assert ops + more == ops;
    } else {
      var init, op := more[..|more| - 1], more[|more| - 1];
      ExecGrows(defs, ops, init, r);
      HistoryGrows(defs, ops + init, op, r);
      assert (ops + init) + [op] == ops + more;
    }
  }

  lemma {:induction false} TasksStay(defs: Definitions, ops: seq<Op>, more: seq<Op>, id: TaskId)
    requires Registered(defs) && id in Exec(defs, ops).tasks
    ensures id in Exec(defs, ops + more).tasks
    ensures Exec(defs, ops + more).tasks[id].runId == Exec(defs, ops).tasks[id].runId
  {
    hide Exec, Registered, Next, DbOk, RunGrew;
    if more == [] {
      assert ops + more == ops;
    } else {
      var init, op := more[..|more| - 1], more[|more| - 1];
      TasksStay(defs, ops, init, id);
      ReachableOk(defs, ops + init);
      NextKeeps(defs, Exec(defs, ops + init), op);
      ExecMore(defs, ops, more);
    }
  }
}
