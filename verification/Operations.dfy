/** Every operation on the store, one atomic step each, and the states that any sequence of them can reach. */
module Operations {
  import opened Prelude
  import opened Workflow
  import opened History
  import opened Engine
  import opened Reducer
  import opened Invariant
  import opened Chronicle
  import opened Commands
  import opened Tracking
  import opened Settled
  import opened CommandProofs
  import opened CancelProofs
  import opened Tables
  import opened Runs
  import opened System

  /** The identifiers drawn, the clock and the choice and order of selected rows come from outside. */
  datatype Op =
    | Start(runId: RunId, workflow: string, input: Json, now: Time, uuid: nat -> TaskId)
    | Lease(queue: string, worker: string, limit: int, ids: seq<TaskId>, ttl: int, now: Time)
    | Heartbeat(task: TaskId, worker: string, extendBy: int, now: Time)
    | Submit(req: Request, listing: seq<TaskId>, now: Time, uuid: nat -> TaskId)

  function Launch(defs: Definitions, db: Db, runId: RunId, workflow: string, input: Json, now: Time,
                  uuid: nat -> TaskId): Result<Db, Error> {
    if workflow !in defs then Err(WorkflowNotFound)
    else
      match StartRun(Env(runId, now, uuid), defs[workflow], input)
      case Rejected(error) => Err(error)
      case Unchanged => Ok(db)
      case Append(run, events, mutations) => CreateRun(db, run, events, mutations)
  }

  function Perform(defs: Definitions, db: Db, op: Op): Result<Db, Error> {
    match op
    case Start(runId, workflow, input, now, uuid) => Launch(defs, db, runId, workflow, input, now, uuid)
    case Lease(_, worker, _, ids, ttl, now) => LeaseTasks(db, ids, worker, ttl, now)
    case Heartbeat(task, worker, extendBy, now) => HeartbeatTask(db, task, worker, extendBy, now)
    case Submit(req, listing, now, uuid) => Command(defs, db, req, listing, now, uuid)
  }

  /** What the store and the supply of identifiers guarantee of an operation's outside choices. */
  ghost predicate Allowed(db: Db, op: Op) {
    match op
    case Start(_, _, _, _, uuid) => NewIds(db, uuid)
    case Lease(queue, _, limit, ids, _, now) => Selected(db, queue, ids, limit, now)
    case Heartbeat(_, _, _, _) => true
    case Submit(req, listing, _, uuid) => Enabled(db, req, listing, uuid)
  }

  /** An operation that fails leaves the store as it was. */
  ghost function Next(defs: Definitions, db: Db, op: Op): Db {
    if Allowed(db, op) && Perform(defs, db, op).Ok? then Perform(defs, db, op).value else db
  }

  ghost function Exec(defs: Definitions, ops: seq<Op>): Db {
    if |ops| == 0 then EMPTY else Next(defs, Exec(defs, ops[..|ops| - 1]), ops[|ops| - 1])
  }

  // ------------------------------------------------------------------ what every operation does to every run

  /** Progress: work on a task, or, where heartbeats count too, a renewed lease. */
  predicate Counts(p: Payload, beat: bool) {
    IsWork(p) || (beat && p.TaskHeartbeat?)
  }

  /** The run is as it was, or its history has grown by some progress and its version with it. */
  predicate Grew(v: View, v': View, beat: bool) {
    || v' == v
    || (&& v.run.version < v'.run.version && v.history <= v'.history && v'.run.workflowName == v.run.workflowName
        && exists k :: |v.history| <= k < |v'.history| && Counts(v'.history[k].payload, beat))
  }

  predicate RunGrew(db: Db, db': Db, r: RunId, beat: bool) {
    r in db.runs && r in db'.runs && Grew(ViewOf(db, r), ViewOf(db', r), beat)
  }

  /** No run and no task is lost, and a run that has changed at all has made progress. */
  ghost predicate Evolves(db: Db, db': Db, beat: bool) {
    && (forall r {:trigger RunGrew(db, db', r, beat)} :: r in db.runs ==> RunGrew(db, db', r, beat))
    && (forall id :: id in db.tasks ==> id in db'.tasks && db'.tasks[id].runId == db.tasks[id].runId)
  }

  lemma GrewTransitive(v: View, v': View, v'': View, beat: bool)
    requires Grew(v, v', beat) && Grew(v', v'', beat)
    ensures Grew(v, v'', beat)
  {
    if v' != v && v'' != v' {
      var k :| |v.history| <= k < |v'.history| && Counts(v'.history[k].payload, beat);
      assert v''.history[k] == v'.history[k];
    }
  }

  lemma EvolvesTransitive(db: Db, db': Db, db'': Db, beat: bool)
    requires Evolves(db, db', beat) && Evolves(db', db'', beat)
    ensures Evolves(db, db'', beat)
  {
    hide Grew, ViewOf;
    forall r | r in db.runs ensures RunGrew(db, db'', r, beat) {
      assert RunGrew(db, db', r, beat) && RunGrew(db', db'', r, beat);
      GrewTransitive(ViewOf(db, r), ViewOf(db', r), ViewOf(db'', r), beat);
    }
  }

  lemma AdvancesEvolves(defs: Definitions, db: Db, db': Db, runId: RunId, beat: bool)
    requires DbOk(defs, db) && Advances(defs, db, db', runId) && RunGrew(db, db', runId, beat)
    ensures Evolves(db, db', beat) && DbOk(defs, db')
  {
    hide DbOk, RunOk, RunGrew, RowsOf, HistoryOf;
    AdvancesKeepsDbOk(defs, db, db', runId);
    DbTasks(defs, db);
    hide Frames;
    forall r | r in db.runs ensures RunGrew(db, db', r, beat) {
      AdvancedRun(defs, db, db', runId, r, beat);
    }
    forall id | id in db.tasks ensures id in db'.tasks && db'.tasks[id].runId == db.tasks[id].runId {
      TaskKept(defs, db, db', runId, id);
    }
  }

  lemma AdvancesKeepsDbOk(defs: Definitions, db: Db, db': Db, runId: RunId)
    requires DbOk(defs, db) && Advances(defs, db, db', runId)
    ensures DbOk(defs, db')
  {
    hide DbOk, RunOk, Frames, RowsOf, HistoryOf;
    FramesKeepsDbOk(defs, db, db', runId);
  }

  lemma AdvancedRun(defs: Definitions, db: Db, db': Db, runId: RunId, r: RunId, beat: bool)
    requires Advances(defs, db, db', runId) && RunGrew(db, db', runId, beat) && r in db.runs
    ensures RunGrew(db, db', r, beat)
  {
    hide RowsOf, HistoryOf, RunOk;
    assert r in db'.runs;
    assert r != runId ==> ViewOf(db', r) == ViewOf(db, r);
  }

  lemma TaskKept(defs: Definitions, db: Db, db': Db, runId: RunId, id: TaskId)
    requires Advances(defs, db, db', runId) && id in db.tasks && db.tasks[id].runId in db.runs
    ensures id in db'.tasks && db'.tasks[id].runId == db.tasks[id].runId
  {
    hide RunOk;
    var r := db.tasks[id].runId;
    assert r != runId ==> ViewOf(db', r) == ViewOf(db, r);
    assert id in RowsOf(db.tasks, r);
    assert id in RowsOf(db'.tasks, r);
  }

  // ------------------------------------------------------------------ commands

  /** Workers act on activities, in replay as in the task table. */
  lemma ActsOnActivity(env: Env, db: Db, ld: Loaded, req: Request)
    requires LoadedOk(env, ld) && ld.tasks == RowsOf(db.tasks, env.runId) && Admissible(db, req)
    ensures (req.CompleteRequest? || req.FailRequest?) && req.task in ld.state.core.tasks ==>
              ld.state.core.tasks[req.task].kind.Activity?
  {
    hide Inv, Committed, Fresh, ValidDefinition;
    if (req.CompleteRequest? || req.FailRequest?) && req.task in ld.state.core.tasks {
      assert RowAt(ld.state.core.tasks, ld.tasks, env.runId, req.task);
    }
  }

  /** What the command appended was one legal continuation of run `env.runId`, and nothing else has changed. */
  ghost predicate Continues(defs: Definitions, db: Db, db': Db, env: Env, ld: Loaded, outcome: Outcome, w: Work) {
    && Commits(env, ld, outcome, w) && Advances(defs, db, db', env.runId)
    && ViewOf(db', env.runId) == Committing(ViewOf(db, env.runId), outcome.run, w.events, w.mutations)
  }

  /** A command on a run reads a committed state, and what it appends is one legal continuation of that run. */
  lemma CommandCommits(defs: Definitions, db: Db, req: Request, listing: seq<TaskId>, now: Time, uuid: nat -> TaskId)
    returns (ld: Loaded, w: Work)
    requires Registered(defs) && DbOk(defs, db) && Enabled(db, req, listing, uuid)
    requires Locate(db, req).Ok? && Locate(db, req).value in db.runs
    ensures var env := Env(Locate(db, req).value, now, uuid);
            var db' := Command(defs, db, req, listing, now, uuid);
            && Load(defs, db, env.runId, listing) == Ok(ld) && LoadedOk(env, ld) && ld.run == db.runs[env.runId]
            && db' == Write(db, ld.run.version, Execute(env, ld, req))
            && (Execute(env, ld, req).Append? ==>
                  db'.Ok? && Continues(defs, db, db'.value, env, ld, Execute(env, ld, req), w))
  {
    var env := Env(Locate(db, req).value, now, uuid);
    hide DbOk, Registered, NewIds, Lists, RowsOf, Locate, Admissible, Execute, LoadedOk, Commits, Load, Continues,
         Command, Write;
    LoadedFromDb(defs, db, env.runId, listing, env);
    ld := Load(defs, db, env.runId, listing).value;
    LoadedTasks(defs, db, env.runId, listing);
    CommandIs(defs, db, req, listing, now, uuid);
    if Execute(env, ld, req).Append? {
      ActsOnActivity(env, db, ld, req);
      w := ExecuteCommits(env, ld, req);
      WriteContinues(defs, db, env, ld, Execute(env, ld, req), w);
    } else {
      w := Begin(ld);
    }
  }

  lemma CommandIs(defs: Definitions, db: Db, req: Request, listing: seq<TaskId>, now: Time, uuid: nat -> TaskId)
    requires Locate(db, req).Ok? && Load(defs, db, Locate(db, req).value, listing).Ok?
    ensures var env, ld := Env(Locate(db, req).value, now, uuid), Load(defs, db, Locate(db, req).value, listing).value;
            Command(defs, db, req, listing, now, uuid) == Write(db, ld.run.version, Execute(env, ld, req))
  {
    hide Locate, Load, Write, Execute;
  }

  lemma WriteContinues(defs: Definitions, db: Db, env: Env, ld: Loaded, outcome: Outcome, w: Work)
    requires Registered(defs) && DbOk(defs, db) && env.runId in db.runs && NewIds(db, env.uuid)
    requires Load(defs, db, env.runId, ld.listing) == Ok(ld)
    requires Commits(env, ld, outcome, w)
    ensures Write(db, ld.run.version, outcome).Ok?
    ensures Continues(defs, db, Write(db, ld.run.version, outcome).value, env, ld, outcome, w)
  {
    hide DbOk, Registered, NewIds, Commits, Load, Advances, Committing, ViewOf, Write;
    WriteAdvances(defs, db, env, ld, outcome, w);
  }

  lemma LoadedTasks(defs: Definitions, db: Db, runId: RunId, listing: seq<TaskId>)
    requires Load(defs, db, runId, listing).Ok?
    ensures var ld := Load(defs, db, runId, listing).value;
            ld.tasks == RowsOf(db.tasks, runId) && ld.listing == listing && runId in db.runs && ld.run == db.runs[runId]
  {
    hide RowsOf, Replay;
  }

  // ------------------------------------------------------------------ leases and heartbeats

  lemma NextNumber(history: map<RunId, seq<Event>>, r: RunId, e: Event)
    requires Numbered(HistoryOf(history, r)) && e.runId == r && e.sequence == |HistoryOf(history, r)| + 1
    ensures NextSequence(HistoryOf(history, r)) == |HistoryOf(history, r)| + 1
    ensures InsertEvent(history, e) == Ok(history[r := HistoryOf(history, r) + [e]])
  {
  }

  /** The store after event `e` about task `id` of run `r`, whose row becomes `row`. */
  function Recorded(db: Db, r: RunId, id: TaskId, row: TaskRecord, e: Event): Db
    requires r in db.runs
  {
    Db(db.runs[r := db.runs[r].(version := |HistoryOf(db.history, r)| + 1, updatedAt := e.createdAt)],
       db.history[r := HistoryOf(db.history, r) + [e]],
       db.tasks[id := row])
  }

  lemma RecordedView(db: Db, r: RunId, id: TaskId, row: TaskRecord, e: Event)
    requires r in db.runs && id in db.tasks && db.tasks[id].runId == r && row.runId == r
    ensures var v := ViewOf(db, r);
            ViewOf(Recorded(db, r, id, row, e), r)
            == View(v.run.(version := |v.history| + 1, updatedAt := e.createdAt), v.history + [e], v.tasks[id := row])
    ensures forall q :: q in db.runs && q != r ==> ViewOf(Recorded(db, r, id, row, e), q) == ViewOf(db, q)
    ensures id in ViewOf(db, r).tasks
  {
    var db' := Recorded(db, r, id, row, e);
    assert RowsOf(db'.tasks, r) == RowsOf(db.tasks, r)[id := row];
    forall q | q in db.runs && q != r ensures ViewOf(db', q) == ViewOf(db, q) {
      assert RowsOf(db'.tasks, q) == RowsOf(db.tasks, q);
    }
  }

  lemma RecordedAdvances(defs: Definitions, db: Db, r: RunId, id: TaskId, row: TaskRecord, e: Event)
    requires DbOk(defs, db) && r in db.runs && id in db.tasks && db.tasks[id].runId == r && row.runId == r
             && row.id == id
    requires db.runs[r].workflowName in defs
    requires ViewOk(defs[db.runs[r].workflowName], ViewOf(Recorded(db, r, id, row, e), r))
    ensures Advances(defs, db, Recorded(db, r, id, row, e), r)
  {
    hide DbOk, RunOk, ViewOk, Frames, RowsOf, Numbered;
    var db' := Recorded(db, r, id, row, e);
    RunOfTask(defs, db, id);
    DbTasks(defs, db);
    RecordedView(db, r, id, row, e);
    VersionIsLength(defs, db, r);
    RecordedFrames(db, r, id, row, e) by { hide ViewOf; }
    WrittenRunOk(defs, db, db', r) by { hide ViewOf; }
  }

  lemma VersionIsLength(defs: Definitions, db: Db, r: RunId)
    requires r in db.runs && RunOk(defs, db, r)
    ensures db.runs[r].version == |HistoryOf(db.history, r)| && Numbered(HistoryOf(db.history, r))
  {
    hide Inv, Committed, LegalFrom, Replay, RowsAgree, RowsOf;
  }

  lemma RecordedFrames(db: Db, r: RunId, id: TaskId, row: TaskRecord, e: Event)
    requires r in db.runs && id in db.tasks && db.tasks[id].runId == r && row.runId == r && row.id == id
    requires forall k :: k in db.tasks ==> db.tasks[k].runId in db.runs && db.tasks[k].id == k
    requires forall q :: q !in db.runs ==> q !in db.history
    requires forall q :: q in db.runs && q != r ==> ViewOf(Recorded(db, r, id, row, e), q) == ViewOf(db, q)
    ensures Frames(db, Recorded(db, r, id, row, e), r)
  {
    hide ViewOf;
    var db' := Recorded(db, r, id, row, e);
    forall q | q !in db'.runs ensures q !in db'.history {
      assert q !in db.history;
    }
  }

  /** What a store operation on a task finds: the row's run exists and satisfies the invariant. */
  lemma RunOfTask(defs: Definitions, db: Db, id: TaskId)
    requires DbOk(defs, db) && id in db.tasks
    ensures db.tasks[id].runId in db.runs && db.tasks[id].id == id
    ensures RunOk(defs, db, db.tasks[id].runId)
    ensures id in RowsOf(db.tasks, db.tasks[id].runId) && RowsOf(db.tasks, db.tasks[id].runId)[id] == db.tasks[id]
  {
    DbTasks(defs, db);
    hide RunOk;
  }

  lemma RunOkView(defs: Definitions, db: Db, r: RunId)
    requires r in db.runs && RunOk(defs, db, r)
    ensures db.runs[r].id == r && db.runs[r].workflowName in defs
    ensures ViewOk(defs[db.runs[r].workflowName], ViewOf(db, r))
  {
    hide ViewOk;
  }

  lemma LeaseOneAdvances(defs: Definitions, db: Db, id: TaskId, worker: string, ttl: int, now: Time)
    requires DbOk(defs, db)
    requires id in db.tasks && db.tasks[id].status.Available? && db.tasks[id].kind.Activity?
             && db.tasks[id].availableAt < now + SECOND
    ensures var r := db.tasks[id].runId;
            && r in db.runs && id in ViewOf(db, r).tasks
            && LeaseOne(db, id, worker, ttl, now)
               == Ok(Recorded(db, r, id, LeasedRow(db.tasks[id], worker, now + ttl, now),
                              LeaseEvent(ViewOf(db, r), id, worker, ttl, now)))
            && Advances(defs, db, LeaseOne(db, id, worker, ttl, now).value, r)
  {
    var r := db.tasks[id].runId;
    RunOfTask(defs, db, id) by { hide DbOk, RunOk; }
    RunOkView(defs, db, r) by { hide DbOk, RunOk, ViewOk; }
    VersionIsLength(defs, db, r) by { hide DbOk, RunOk, ViewOk; }
    hide DbOk, RunOk, ViewOk, Numbered, InsertEvent, NextSequence, Advances;
    var row := LeasedRow(db.tasks[id], worker, now + ttl, now);
    var e := LeaseEvent(ViewOf(db, r), id, worker, ttl, now);
    NextNumber(db.history, r, e);
    RecordedView(db, r, id, row, e);
    LeaseKeepsView(defs[db.runs[r].workflowName], ViewOf(db, r), ViewOf(Recorded(db, r, id, row, e), r).run, id,
                   worker, ttl, now);
    RecordedAdvances(defs, db, r, id, row, e);
  }

  lemma HeartbeatAdvances(defs: Definitions, db: Db, id: TaskId, worker: string, extendBy: int, now: Time)
    requires DbOk(defs, db)
    requires id in db.tasks && db.tasks[id].status.Leased? && db.tasks[id].leaseOwner == worker
    ensures var r := db.tasks[id].runId;
            && r in db.runs && id in ViewOf(db, r).tasks
            && HeartbeatTask(db, id, worker, extendBy, now)
               == Ok(Recorded(db, r, id, RenewedRow(db.tasks[id], extendBy, now),
                              HeartbeatEvent(ViewOf(db, r), id, worker, extendBy, now)))
            && Advances(defs, db, HeartbeatTask(db, id, worker, extendBy, now).value, r)
  {
    var r := db.tasks[id].runId;
    RunOfTask(defs, db, id) by { hide DbOk, RunOk; }
    RunOkView(defs, db, r) by { hide DbOk, RunOk, ViewOk; }
    VersionIsLength(defs, db, r) by { hide DbOk, RunOk, ViewOk; }
    hide DbOk, RunOk, ViewOk, Numbered, InsertEvent, NextSequence, Advances;
    var row := RenewedRow(db.tasks[id], extendBy, now);
    var e := HeartbeatEvent(ViewOf(db, r), id, worker, extendBy, now);
    NextNumber(db.history, r, e);
    RecordedView(db, r, id, row, e);
    HeartbeatKeepsView(defs[db.runs[r].workflowName], ViewOf(db, r), ViewOf(Recorded(db, r, id, row, e), r).run, id,
                       worker, extendBy, now);
    RecordedAdvances(defs, db, r, id, row, e);
  }

  lemma RecordedGrew(db: Db, r: RunId, id: TaskId, row: TaskRecord, e: Event, beat: bool)
    requires r in db.runs && id in db.tasks && db.tasks[id].runId == r && row.runId == r
    requires db.runs[r].version == |HistoryOf(db.history, r)| && Counts(e.payload, beat)
    ensures RunGrew(db, Recorded(db, r, id, row, e), r, beat)
  {
    RecordedView(db, r, id, row, e);
    hide RowsOf;
    var v, v' := ViewOf(db, r), ViewOf(Recorded(db, r, id, row, e), r);
    assert v'.history[|v.history|] == e;
  }

  lemma LeaseOneEvolves(defs: Definitions, db: Db, id: TaskId, worker: string, ttl: int, now: Time)
    requires DbOk(defs, db)
    requires id in db.tasks && db.tasks[id].status.Available?
             ==> db.tasks[id].kind.Activity? && db.tasks[id].availableAt < now + SECOND
    ensures LeaseOne(db, id, worker, ttl, now).Ok?
    ensures var db' := LeaseOne(db, id, worker, ttl, now).value;
            && DbOk(defs, db') && Evolves(db, db', false)
            && forall k :: k in db.tasks && k != id ==> k in db'.tasks && db'.tasks[k] == db.tasks[k]
  {
    if id in db.tasks && db.tasks[id].status.Available? {
      hide DbOk, Evolves, LeaseOne;
      LeaseAvailableEvolves(defs, db, id, worker, ttl, now);
    } else {
      SameEvolves(db, false);
    }
  }

  lemma LeaseAvailableEvolves(defs: Definitions, db: Db, id: TaskId, worker: string, ttl: int, now: Time)
    requires DbOk(defs, db)
    requires id in db.tasks && db.tasks[id].status.Available? && db.tasks[id].kind.Activity?
             && db.tasks[id].availableAt < now + SECOND
    ensures LeaseOne(db, id, worker, ttl, now).Ok?
    ensures var db' := LeaseOne(db, id, worker, ttl, now).value;
            && DbOk(defs, db') && Evolves(db, db', false)
            && forall k :: k in db.tasks && k != id ==> k in db'.tasks && db'.tasks[k] == db.tasks[k]
  {
    hide DbOk, Evolves, Advances, RunOk, ViewOf, RowsOf, HistoryOf, LeaseOne, RunGrew;
    var r := db.tasks[id].runId;
    LeaseOneAdvances(defs, db, id, worker, ttl, now);
    RunOfTask(defs, db, id);
    VersionIsLength(defs, db, r);
    RecordedGrew(db, r, id, LeasedRow(db.tasks[id], worker, now + ttl, now),
                 LeaseEvent(ViewOf(db, r), id, worker, ttl, now), false);
    AdvancesEvolves(defs, db, LeaseOne(db, id, worker, ttl, now).value, r, false);
  }

  lemma SameEvolves(db: Db, beat: bool)
    ensures Evolves(db, db, beat)
  {
  }

  lemma {:induction false} LeaseTasksEvolves(defs: Definitions, db: Db, queue: string, limit: int, ids: seq<TaskId>,
                                             worker: string, ttl: int, now: Time)
    requires DbOk(defs, db) && Selected(db, queue, ids, limit, now)
    ensures LeaseTasks(db, ids, worker, ttl, now).Ok?
    ensures var db' := LeaseTasks(db, ids, worker, ttl, now).value;
            && DbOk(defs, db') && Evolves(db, db', false)
            && forall k :: k in db.tasks && k !in ids ==> k in db'.tasks && db'.tasks[k] == db.tasks[k]
  {
    hide DbOk, Evolves, LeaseOne;
    if ids == [] {
      SameEvolves(db, false);
    } else {
      var init, id := ids[..|ids| - 1], ids[|ids| - 1];
      assert forall i {:trigger init[i]} :: 0 <= i < |init| ==> init[i] == ids[i];
      LeaseTasksEvolves(defs, db, queue, limit, init, worker, ttl, now);
      var db1 := LeaseTasks(db, init, worker, ttl, now).value;
      assert id !in init && Selectable(db, queue, id, now);
      LeaseOneEvolves(defs, db1, id, worker, ttl, now);
      EvolvesTransitive(db, db1, LeaseOne(db1, id, worker, ttl, now).value, false);
    }
  }

  lemma HeartbeatHolds(db: Db, id: TaskId, worker: string, extendBy: int, now: Time)
    requires HeartbeatTask(db, id, worker, extendBy, now).Ok?
    ensures id in db.tasks && db.tasks[id].status.Leased? && db.tasks[id].leaseOwner == worker
  {
    hide AppendNumbered;
  }

  lemma HeartbeatEvolves(defs: Definitions, db: Db, id: TaskId, worker: string, extendBy: int, now: Time)
    requires DbOk(defs, db) && HeartbeatTask(db, id, worker, extendBy, now).Ok?
    ensures var db' := HeartbeatTask(db, id, worker, extendBy, now).value;
            DbOk(defs, db') && Evolves(db, db', true)
  {
    HeartbeatHolds(db, id, worker, extendBy, now) by { hide DbOk; }
    hide DbOk, Evolves, Advances, RunOk, ViewOf, RowsOf, HistoryOf, HeartbeatTask, RunGrew;
    var r := db.tasks[id].runId;
    HeartbeatAdvances(defs, db, id, worker, extendBy, now);
    RunOfTask(defs, db, id);
    VersionIsLength(defs, db, r);
    RecordedGrew(db, r, id, RenewedRow(db.tasks[id], extendBy, now),
                 HeartbeatEvent(ViewOf(db, r), id, worker, extendBy, now), true);
    AdvancesEvolves(defs, db, HeartbeatTask(db, id, worker, extendBy, now).value, r, true);
  }

  lemma ContinuesGrew(defs: Definitions, db: Db, db': Db, env: Env, ld: Loaded, outcome: Outcome, w: Work)
    requires Continues(defs, db, db', env, ld, outcome, w)
    ensures RunGrew(db, db', env.runId, false) && Advances(defs, db, db', env.runId)
  {
    hide Final, Frames, RunOk, RowsOf, Mutated, SummaryMatches;
    var v, v' := ViewOf(db, env.runId), ViewOf(db', env.runId);
    var k :| 0 <= k < |w.events| && IsWork(w.events[k].payload);
    assert v'.history[|v.history| + k] == w.events[k];
  }

  /** A command leaves the store as it is or moves one run on. */
  lemma CommandEvolves(defs: Definitions, db: Db, req: Request, listing: seq<TaskId>, now: Time, uuid: nat -> TaskId)
    requires Registered(defs) && DbOk(defs, db) && Enabled(db, req, listing, uuid)
    requires Command(defs, db, req, listing, now, uuid).Ok?
    ensures var db' := Command(defs, db, req, listing, now, uuid).value;
            DbOk(defs, db') && Evolves(db, db', false)
  {
    hide Registered, DbOk, Enabled, Evolves, Continues, Execute, LoadFrom, RowsOf, LoadedOk;
    var env := Env(Locate(db, req).value, now, uuid);
    var ld, w := CommandCommits(defs, db, req, listing, now, uuid);
    var db' := Command(defs, db, req, listing, now, uuid).value;
    if Execute(env, ld, req).Append? {
      hide Command, Load, Write;
      ContinuesGrew(defs, db, db', env, ld, Execute(env, ld, req), w);
      AdvancesEvolves(defs, db, db', env.runId, false) by { hide Advances, RunGrew; }
    } else {
      SameEvolves(db, false);
    }
  }

  // ------------------------------------------------------------------ starting a run

  /** Scheduling adds events and leaves the summary alone. */
  lemma {:induction false} ReadyKeepsSummary(env: Env, w: Work, list: seq<StepId>)
    requires ScheduleForwardReady(env, w, list).Ok?
    ensures var w' := ScheduleForwardReady(env, w, list).value;
            w.events <= w'.events && SummaryMatches(w.state.run, w'.state.run)
              && w'.state.run.failure == w.state.run.failure
  {
    hide ApplyCore, Ready, NewTask;
    if list != [] {
      ReadyKeepsSummary(env, w, list[..|list| - 1]);
    }
  }

  /** The row of a new run is its summary as it was created. */
  function StartedRow(env: Env, def: Definition, input: Json, w: Work): RunRecord {
    NewRun(env, def.name, NormalizeJson(input)).(version := |w.events|)
  }

  lemma StartSummary(env: Env, def: Definition, input: Json)
    requires StartWork(env, def, input).Ok?
    ensures var w := StartWork(env, def, input).value;
            && w.events != [] && w.events[0] == StartedEvent(env, def.name, NormalizeJson(input))
            && SummaryMatches(StartedRow(env, def, input, w), w.state.run)
  {
    var started, run := StartedEvent(env, def.name, NormalizeJson(input)), NewRun(env, def.name, NormalizeJson(input));
    assert [started][..0] == [];
    assert Fold(Initial(def, run), [started]) == Apply(Initial(def, run), started);
    var s := Apply(Initial(def, run), started).value;
    hide ScheduleForwardReady, Replay;
    ReadyKeepsSummary(env, Work(s, 2, [started], []), def.order);
  }

  lemma StartedView(env: Env, def: Definition, input: Json)
    requires ValidDefinition(def) && Fresh(env, map[], 2)
    ensures StartWork(env, def, input).Ok?
    ensures var w := StartWork(env, def, input).value;
            ViewOk(def, View(StartedRow(env, def, input, w), w.events, Mutated(map[], w.mutations)))
  {
    hide ValidDefinition, Fresh, Final, StartWork;
    StartWorkFinal(env, def, input);
    StartSummary(env, def, input);
    var w := StartWork(env, def, input).value;
    StartedReplays(env, def, input, w);
  }

  lemma StartedReplays(env: Env, def: Definition, input: Json, w: Work)
    requires Final(Base(def, Initial(def, NewRun(env, def.name, NormalizeJson(input))), 0, map[]), env, w)
    requires w.events != [] && w.events[0].payload.WorkflowStarted? && w.state.run.status.Running?
    requires SummaryMatches(StartedRow(env, def, input, w), w.state.run)
    ensures ViewOk(def, View(StartedRow(env, def, input, w), w.events, Mutated(map[], w.mutations)))
  {
    hide Inv, Committed, LegalFrom, RowsAgree, AllProper, Fresh, Fold;
    var run, row := NewRun(env, def.name, NormalizeJson(input)), StartedRow(env, def, input, w);
    FoldIsCoreFold(Initial(def, run), w.events);
    ReplayFromOtherSummary(def, run, row, w.events) by { hide Final; }
  }

  lemma LaunchIs(defs: Definitions, db: Db, runId: RunId, workflow: string, input: Json, now: Time, uuid: nat -> TaskId)
    requires workflow in defs && runId !in db.runs
    requires StartWork(Env(runId, now, uuid), defs[workflow], input).Ok?
    requires var w := StartWork(Env(runId, now, uuid), defs[workflow], input).value;
             InsertEvents(db.history, w.events).Ok? && MutateTables(db.tasks, w.mutations).Ok?
    ensures var env, def := Env(runId, now, uuid), defs[workflow];
            var w := StartWork(env, def, input).value;
            Launch(defs, db, runId, workflow, input, now, uuid)
            == Ok(Db(db.runs[runId := StartedRow(env, def, input, w)],
                     InsertEvents(db.history, w.events).value, MutateTables(db.tasks, w.mutations).value))
  {
    hide StartWork, InsertEvents, MutateTables;
  }

  lemma DrawnAreNew(db: Db, env: Env)
    requires NewIds(db, env.uuid)
    ensures forall k: nat :: env.Id(k) !in db.tasks
  {
    var env0 := Env(0, 0, env.uuid);
    assert forall k: nat :: env.Id(k) == env0.Id(k);
  }

  lemma NoRowsYet(tasks: map<TaskId, TaskRecord>, runId: RunId)
    requires forall id :: id in tasks ==> tasks[id].runId != runId
    ensures RowsOf(tasks, runId) == map[] && OnlyRun(tasks, tasks, runId, map[])
  {
  }

  lemma WorkIsProper(b: Base, env: Env, w: Work)
    requires Final(b, env, w)
    ensures AllProper(b.rows, env, w.mutations)
  {
    hide Chained, RowsAgree, AllProper, Committed;
  }

  lemma InsertedIds(db: Db, tasks: map<TaskId, TaskRecord>, runId: RunId, rows: map<TaskId, TaskRecord>)
    requires forall id :: id in db.tasks ==> db.tasks[id].runId in db.runs && db.tasks[id].id == id
    requires runId !in db.runs && OnlyRun(db.tasks, tasks, runId, rows)
    ensures forall id :: id in tasks ==> tasks[id].runId in db.runs.Keys + {runId} && tasks[id].id == id
    ensures forall id :: id in db.tasks ==> id in tasks && tasks[id].runId == db.tasks[id].runId
  {
  }

  /** Only the new run's rows are added. */
  lemma StartedRows(db: Db, b: Base, env: Env, w: Work)
    requires forall id :: id in db.tasks ==> db.tasks[id].runId in db.runs && db.tasks[id].id == id
    requires NewIds(db, env.uuid) && env.runId !in db.runs && b.rows == map[] && Final(b, env, w)
    ensures MutateTables(db.tasks, w.mutations).Ok?
    ensures var tasks := MutateTables(db.tasks, w.mutations).value;
            && RowsOf(tasks, env.runId) == Mutated(map[], w.mutations)
            && (forall q :: q != env.runId ==> RowsOf(tasks, q) == RowsOf(db.tasks, q))
            && (forall id :: id in tasks ==> tasks[id].runId in db.runs.Keys + {env.runId} && tasks[id].id == id)
            && (forall id :: id in db.tasks ==> id in tasks && tasks[id].runId == db.tasks[id].runId)
  {
    hide Final, NewIds, AllProper, MutateTables, Mutated, RowsOf, OnlyRun;
    DrawnAreNew(db, env);
    NoRowsYet(db.tasks, env.runId);
    assert AllProper(map[], env, w.mutations) by { WorkIsProper(b, env, w); }
    MutatedTables(db.tasks, env, w.mutations);
    var tasks := MutateTables(db.tasks, w.mutations).value;
    OnlyRunRows(db.tasks, tasks, env.runId, Mutated(map[], w.mutations));
    InsertedIds(db, tasks, env.runId, Mutated(map[], w.mutations));
  }

  /** Run `runId` has been added to the store, and nothing else has changed. */
  ghost predicate Adds(db: Db, db': Db, runId: RunId, v: View) {
    && runId !in db.runs && runId in db'.runs && ViewOf(db', runId) == v
    && Frames(db, db', runId)
    && (forall id :: id in db.tasks ==> id in db'.tasks && db'.tasks[id].runId == db.tasks[id].runId)
  }

  lemma InsertedIsAdded(db: Db, runId: RunId, run: RunRecord, events: seq<Event>, tasks: map<TaskId, TaskRecord>,
                        rows: map<TaskId, TaskRecord>)
    requires runId !in db.runs && forall r :: r !in db.runs ==> r !in db.history
    requires RowsOf(tasks, runId) == rows && forall q :: q != runId ==> RowsOf(tasks, q) == RowsOf(db.tasks, q)
    requires forall id :: id in tasks ==> tasks[id].runId in db.runs.Keys + {runId} && tasks[id].id == id
    requires forall id :: id in db.tasks ==> id in tasks && tasks[id].runId == db.tasks[id].runId
    ensures Adds(db, Db(db.runs[runId := run], db.history[runId := events], tasks), runId, View(run, events, rows))
  {
    hide RowsOf;
    var db' := Db(db.runs[runId := run], db.history[runId := events], tasks);
    forall q | q in db.runs && q != runId ensures ViewOf(db', q) == ViewOf(db, q) {
      assert HistoryOf(db'.history, q) == HistoryOf(db.history, q);
    }
    forall q | q !in db'.runs ensures q !in db'.history {
      assert q !in db.history;
    }
  }

  lemma LaunchAdds(defs: Definitions, db: Db, runId: RunId, workflow: string, input: Json, now: Time,
                   uuid: nat -> TaskId) returns (w: Work)
    requires Registered(defs) && DbOk(defs, db) && NewIds(db, uuid) && workflow in defs && runId !in db.runs
    ensures var env, def := Env(runId, now, uuid), defs[workflow];
            && StartWork(env, def, input) == Ok(w)
            && Launch(defs, db, runId, workflow, input, now, uuid).Ok?
            && Adds(db, Launch(defs, db, runId, workflow, input, now, uuid).value, runId,
                    View(StartedRow(env, def, input, w), w.events, Mutated(map[], w.mutations)))
            && ViewOk(def, View(StartedRow(env, def, input, w), w.events, Mutated(map[], w.mutations)))
            && def.name == workflow
  {
    var env, def := Env(runId, now, uuid), defs[workflow];
    assert Fresh(env, map[], 2) by { FreshStart(db, env); }
    assert ValidDefinition(def) && def.name == workflow;
    hide DbOk, Registered, NewIds, Fresh, ValidDefinition, StartWork, ViewOk, Launch, Adds, Final, StartedRow, RowsOf,
         Mutated, InsertEvents, MutateTables;
    StartWorkFinal(env, def, input);
    StartedView(env, def, input);
    StartSummary(env, def, input);
    w := StartWork(env, def, input).value;
    DbTasks(defs, db);
    var b := Base(def, Initial(def, NewRun(env, def.name, NormalizeJson(input))), 0, map[]);
    StartedRows(db, b, env, w);
    StartedEvents(db, b, env, w);
    LaunchIs(defs, db, runId, workflow, input, now, uuid);
    InsertedIsAdded(db, runId, StartedRow(env, def, input, w), w.events, MutateTables(db.tasks, w.mutations).value,
                    Mutated(map[], w.mutations));
  }

  lemma FreshStart(db: Db, env: Env)
    requires NewIds(db, env.uuid)
    ensures Fresh(env, map[], 2)
  {
    var env0 := Env(0, 0, env.uuid);
    assert forall k: nat :: env.Id(k) == env0.Id(k);
  }

  lemma StartedEvents(db: Db, b: Base, env: Env, w: Work)
    requires env.runId !in db.history && b.version == 0 && Final(b, env, w) && w.events != []
    ensures InsertEvents(db.history, w.events) == Ok(db.history[env.runId := w.events])
  {
    hide Inv, Committed, LegalFrom, Fold, Tracked, Fresh, InsertEvents;
    InsertedEvents(db.history, env.runId, w.events);
    assert [] + w.events == w.events;
  }

  lemma LaunchEvolves(defs: Definitions, db: Db, runId: RunId, workflow: string, input: Json, now: Time,
                      uuid: nat -> TaskId)
    requires Registered(defs) && DbOk(defs, db) && NewIds(db, uuid)
    requires Launch(defs, db, runId, workflow, input, now, uuid).Ok?
    ensures var db' := Launch(defs, db, runId, workflow, input, now, uuid).value;
            DbOk(defs, db') && Evolves(db, db', false)
  {
    LaunchHolds(defs, db, runId, workflow, input, now, uuid) by { hide DbOk, Registered; }
    hide DbOk, Registered, NewIds, StartWork, ViewOk, Launch, StartedRow, RowsOf, Mutated, HistoryOf;
    var w := LaunchAdds(defs, db, runId, workflow, input, now, uuid);
    var db' := Launch(defs, db, runId, workflow, input, now, uuid).value;
    hide ViewOf;
    AddedRunOk(defs, db, db', Env(runId, now, uuid), workflow, input, w);
    FramesKeepsDbOk(defs, db, db', runId) by { hide RunOk, Frames; }
    hide RunOk;
    forall r | r in db.runs ensures RunGrew(db, db', r, false) {
      assert ViewOf(db', r) == ViewOf(db, r);
    }
  }

  lemma LaunchHolds(defs: Definitions, db: Db, runId: RunId, workflow: string, input: Json, now: Time,
                    uuid: nat -> TaskId)
    requires Launch(defs, db, runId, workflow, input, now, uuid).Ok?
    ensures workflow in defs && runId !in db.runs
  {
    hide StartWork;
  }

  lemma AddedRunOk(defs: Definitions, db: Db, db': Db, env: Env, workflow: string, input: Json, w: Work)
    requires workflow in defs && defs[workflow].name == workflow
    requires var v := View(StartedRow(env, defs[workflow], input, w), w.events, Mutated(map[], w.mutations));
             Adds(db, db', env.runId, v) && ViewOk(defs[workflow], v)
    ensures RunOk(defs, db', env.runId)
  {
    hide ViewOk, Frames, RowsOf, Mutated;
  }

  // ------------------------------------------------------------------ every reachable state

  lemma NextKeeps(defs: Definitions, db: Db, op: Op)
    requires Registered(defs) && DbOk(defs, db)
    ensures DbOk(defs, Next(defs, db, op)) && Evolves(db, Next(defs, db, op), op.Heartbeat?)
  {
    hide Registered, DbOk, Evolves, Launch, LeaseTasks, HeartbeatTask, Command, NewIds, Selected, Enabled;
    SameEvolves(db, op.Heartbeat?);
    if Allowed(db, op) && Perform(defs, db, op).Ok? {
      match op
      case Start(runId, workflow, input, now, uuid) => LaunchEvolves(defs, db, runId, workflow, input, now, uuid);
      case Lease(queue, worker, limit, ids, ttl, now) => LeaseTasksEvolves(defs, db, queue, limit, ids, worker, ttl,
          now);
      case Heartbeat(task, worker, extendBy, now) => HeartbeatEvolves(defs, db, task, worker, extendBy, now);
      case Submit(req, listing, now, uuid) => CommandEvolves(defs, db, req, listing, now, uuid);
    }
  }

  /** Every state that any sequence of operations reaches satisfies the invariant. */
  lemma {:induction false} ReachableOk(defs: Definitions, ops: seq<Op>)
    requires Registered(defs)
    ensures DbOk(defs, Exec(defs, ops))
  {
    hide Registered, DbOk, Next;
    if ops == [] {
      EmptyOk(defs);
    } else {
      ReachableOk(defs, ops[..|ops| - 1]);
      NextKeeps(defs, Exec(defs, ops[..|ops| - 1]), ops[|ops| - 1]);
    }
  }

  lemma ExecSnoc(defs: Definitions, ops: seq<Op>, op: Op)
    ensures Exec(defs, ops + [op]) == Next(defs, Exec(defs, ops), op)
  {
    hide Next;
    assert (ops + [op])[..|ops|] == ops;
  }

  lemma EmptyOk(defs: Definitions)
    ensures DbOk(defs, EMPTY)
  {
  }

  /** A run of a reachable store: its definition came out of a builder, and its rows satisfy the invariant. */
  lemma ReachableView(defs: Definitions, ops: seq<Op>, r: RunId)
    requires Registered(defs) && r in Exec(defs, ops).runs
    ensures var db := Exec(defs, ops);
            && db.runs[r].id == r && db.runs[r].workflowName in defs
            && ValidDefinition(defs[db.runs[r].workflowName])
            && ViewOk(defs[db.runs[r].workflowName], ViewOf(db, r))
  {
    hide RunOk, ViewOk, Exec, ValidDefinition;
    ReachableOk(defs, ops);
    RunOkView(defs, Exec(defs, ops), r);
  }
}
