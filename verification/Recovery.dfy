/** Recovery of expired leases: what it fails, given that it looks at the lease in one load and fails the task in
    another. */
module Recovery {
  import opened Prelude
  import opened Workflow
  import opened History
  import opened Engine
  import opened Reducer
  import opened Invariant
  import opened Chronicle
  import opened Commands
  import opened Tracking
  import opened Settled
  import opened CommandProofs
  import opened Tables
  import opened Runs
  import opened System
  import opened Operations
  import opened Histories
  import opened Guarantees
  import opened Overlap
  import opened Footprint
  import opened Steps
  import opened Leases

  const LEASE_EXPIRED := "lease expired"

  /** What recovery asks for after its first load: to fail the task in the name of the worker that let its lease
      expire. */
  function RecoveryOf(ld: Loaded, id: TaskId, now: Time): Option<Request> {
    if id !in ld.state.core.tasks then None
    else
      var t := ld.state.core.tasks[id];
      if !t.status.Leased? || t.leaseExpiresAt.None? || t.leaseExpiresAt.value > now then None
      else Some(FailRequest(t.leaseOwner, id, LEASE_EXPIRED, true))
  }

  predicate HeldBy(db: Db, id: TaskId, worker: string) {
    id in db.tasks && db.tasks[id].status.Leased? && db.tasks[id].leaseOwner == worker
  }

  /** The lease of the task runs until after `now`. */
  predicate Live(db: Db, id: TaskId, now: Time) {
    id in db.tasks && db.tasks[id].status.Leased? && db.tasks[id].leaseExpiresAt.Some?
      && db.tasks[id].leaseExpiresAt.value > now
  }

  predicate EndsLease(db: Db, db': Db, id: TaskId) {
    id in db.tasks && db.tasks[id].status.Leased? && id in db'.tasks && !db'.tasks[id].status.Leased?
  }

  // ------------------------------------------------------------------ the second load

  /** A failure request commits exactly if the worker it names still holds the lease, renewed or not. */
  lemma FailureCommits(env: Env, ld: Loaded, req: Request)
    requires LoadedOk(env, ld) && req.FailRequest?
    requires req.task in ld.state.core.tasks ==> ld.state.core.tasks[req.task].kind.Activity?
    ensures Execute(env, ld, req).Append? <==>
            && req.task in ld.state.core.tasks
            && ld.state.core.tasks[req.task].status.Leased? && ld.state.core.tasks[req.task].leaseOwner == req.worker
  {
    hide LoadedOk, FailEvent, FinalFailureWork, RetryWork, Final, Retries;
    if LeaseCheck(ld, req.worker, req.task).None? {
      FinalFailureFinal(env, ld, req.worker, req.task, req.error);
      if Retries(ld, req.task, ld.state.core.cancelRequested, req.retryable) {
        RetriesIfRetryable(ld, req.task, req.retryable);
        RetryFinal(env, ld, req.worker, req.task, req.error);
      }
    }
  }

  predicate Released(s: Core, id: TaskId) {
    id in s.tasks && !s.tasks[id].status.Leased?
  }

  lemma MoveReleases(s: Core, e: Event, id: TaskId)
    requires e.payload.TaskScheduled? || e.payload.TaskFailed? || e.payload.TaskRetryScheduled?
             || e.payload.TaskCancelled?
    requires Released(s, id) && ApplyCore(s, e).Ok?
    ensures Released(ApplyCore(s, e).value, id)
  {
  }

  lemma EndReleases(s: Core, e: Event, id: TaskId)
    requires e.payload.TaskCompleted? || e.payload.TimerFired? || e.payload.TaskLeaseExpired?
    requires Released(s, id) && ApplyCore(s, e).Ok?
    ensures Released(ApplyCore(s, e).value, id)
  {
  }

  lemma EventReleases(s: Core, e: Event, id: TaskId)
    requires Released(s, id) && !e.payload.TaskLeased? && ApplyCore(s, e).Ok?
    ensures Released(ApplyCore(s, e).value, id)
  {
    var p := e.payload;
    if p.TaskScheduled? || p.TaskFailed? || p.TaskRetryScheduled? || p.TaskCancelled? {
      hide ApplyCore;
      MoveReleases(s, e, id);
    } else if p.TaskCompleted? || p.TimerFired? || p.TaskLeaseExpired? {
      hide ApplyCore;
      EndReleases(s, e, id);
    }
  }

  lemma FailedIsReleased(s: Core, e: Event)
    requires e.payload.TaskFailed? && ApplyCore(s, e).Ok?
    ensures Released(ApplyCore(s, e).value, e.payload.taskId)
  {
  }

  /** A task that has failed is not leased again by what follows in the same command. */
  lemma {:induction false} FailureReleases(s: Core, events: seq<Event>, id: TaskId)
    requires FoldCore(s, events).Ok? && events != [] && events[0].payload.TaskFailed? && events[0].payload.taskId == id
    requires forall i :: 0 <= i < |events| ==> !FromStore(events[i].payload)
    ensures Released(FoldCore(s, events).value, id)
  {
    hide ApplyCore, Released;
    var init, e := events[..|events| - 1], events[|events| - 1];
    if init == [] {
      FailedIsReleased(s, e);
    } else {
      FailureReleases(s, init, id);
      EventReleases(FoldCore(s, init).value, e, id);
    }
  }

  lemma CommittedRow(v: View, v': View, env: Env, ld: Loaded, req: Request, w: Work, id: TaskId)
    requires CommandStep(v, v', env, ld, req, w) && id in w.state.core.tasks
    ensures id in v'.tasks && v'.tasks[id].status == w.state.core.tasks[id].status
    ensures FoldCore(ld.state.core, w.events) == Ok(w.state.core)
  {
    FinalCore(BaseOf(ld), env, w) by { hide LoadedOk, Execute, Final; }
    hide LoadedOk, Execute, Chained, Committed, AllProper, Mutated, Fresh;
    assert RowsAgree(w.state.core.tasks, v'.tasks, env.runId);
    RowFacts(w.state.core.tasks, v'.tasks, env.runId, id);
  }

  lemma FailureEnds(v: View, v': View, env: Env, ld: Loaded, req: Request, w: Work)
    requires CommandStep(v, v', env, ld, req, w) && req.FailRequest?
    ensures req.task in v'.tasks && !v'.tasks[req.task].status.Leased?
  {
    CommandWrites(v, v', env, ld, req, w) by { hide CommandStep, WritesOnly; }
    NothingFromStore(ld, req, w.events, w.mutations) by { hide CommandStep, WritesOnly; }
    FinalCore(BaseOf(ld), env, w) by { hide LoadedOk, Execute, Final; }
    hide CommandStep, Consequent, Touches;
    FailureReleases(ld.state.core, w.events, req.task);
    CommittedRow(v, v', env, ld, req, w, req.task);
  }

  /** On a reachable store, failing an activity in the name of `worker` ends its lease exactly if that worker holds it
      then. */
  lemma FailureEndsExactly(defs: Definitions, ops: seq<Op>, op: Op)
    requires Registered(defs) && op.Submit? && op.req.FailRequest? && Allowed(Exec(defs, ops), op)
    requires op.req.task in Exec(defs, ops).tasks
    ensures EndsLease(Exec(defs, ops), Exec(defs, ops + [op]), op.req.task)
            <==> HeldBy(Exec(defs, ops), op.req.task, op.req.worker)
  {
    hide Exec, Registered, DbOk, RunOk, Next;
    var db := Exec(defs, ops);
    ReachableOk(defs, ops);
    ExecSnoc(defs, ops, op);
    RunOfTask(defs, db, op.req.task);
    FailureEndsHeld(defs, db, op);
  }

  lemma FailureEndsHeld(defs: Definitions, db: Db, op: Op)
    requires Registered(defs) && DbOk(defs, db) && op.Submit? && op.req.FailRequest? && Allowed(db, op)
    requires op.req.task in db.tasks && db.tasks[op.req.task].runId in db.runs
    ensures EndsLease(db, Next(defs, db, op), op.req.task) <==> HeldBy(db, op.req.task, op.req.worker)
  {
    hide Registered, DbOk, Next, Load, Execute, LoadedOk, CommandStep, Command, Write, Enabled, Continues;
    var id, r := op.req.task, db.tasks[op.req.task].runId;
    assert id in ViewOf(db, r).tasks;
    var env := Env(r, op.now, op.uuid);
    var ld, w := CommandCommits(defs, db, op.req, op.listing, op.now, op.uuid);
    EnabledParts(db, op.req, op.listing, op.uuid);
    LoadedTasks(defs, db, r, op.listing);
    LoadedTask(env, db, ld, id);
    FailureCommits(env, ld, op.req);
    if SubmitsTo(defs, db, op, r) {
      var w' := SubmitStep(defs, db, op, r);
      FailureEnds(ViewOf(db, r), ViewOf(Next(defs, db, op), r), env, ld, op.req, w');
    } else {
      NextElsewhere(defs, db, op, r);
    }
  }

  lemma NextElsewhere(defs: Definitions, db: Db, op: Op, r: RunId)
    requires Registered(defs) && DbOk(defs, db) && r in db.runs && op.Submit? && Allowed(db, op)
             && !SubmitsTo(defs, db, op, r)
    ensures r in Next(defs, db, op).runs && ViewOf(Next(defs, db, op), r) == ViewOf(db, r)
  {
    hide Registered, DbOk, Command, Enabled, SubmitsTo, ViewOf;
    if Perform(defs, db, op).Ok? { CommandElsewhere(defs, db, op, r); }
  }

  // ------------------------------------------------------------------ both loads together

  lemma FoundLease(defs: Definitions, ops: seq<Op>, id: TaskId, listing: seq<TaskId>, now: Time)
    requires Registered(defs) && id in Exec(defs, ops).tasks
    requires Load(defs, Exec(defs, ops), Exec(defs, ops).tasks[id].runId, listing).Ok?
    ensures var db := Exec(defs, ops);
            var row, found := db.tasks[id], RecoveryOf(Load(defs, db, db.tasks[id].runId, listing).value, id, now);
            && row.runId in db.runs
            && (found.Some? <==> row.status.Leased? && !Live(db, id, now))
            && (found.Some? ==> found.value == FailRequest(row.leaseOwner, id, LEASE_EXPIRED, true)
                                && row.leaseExpiresAt.Some? && row.leaseExpiresAt.value <= now)
  {
    hide Exec, Registered, DbOk, RunOk, ViewOk, Load, ReplayedTask, HistoryOf;
    var db := Exec(defs, ops);
    ReachableOk(defs, ops);
    RunOfTask(defs, db, id);
    LoadedParts(defs, db, db.tasks[id].runId, listing);
    TaskOfRow(defs, db, id);
    LoadedCore(Load(defs, db, db.tasks[id].runId, listing).value);
    if db.tasks[id].status.Leased? { LeaseIsLastGrant(defs, ops, id); }
  }

  lemma LoadedCore(ld: Loaded)
    requires Replay(ld.def, ld.run, ld.events) == Ok(ld.state)
    ensures ld.state.core == StateOf(ld.def, ld.events)
  {
    hide Fold, FoldCore, InitialCore;
    FoldIsCoreFold(Initial(ld.def, ld.run), ld.events);
  }

  /** Recovery found the lease expired at `found`, and commits after `more` has been done. It ends whatever lease the
      same worker holds then. Given a clock that does not run backwards, that lease has not expired exactly if the
      worker has renewed it in between, or taken the task again, for longer than until the commit. */
  lemma RecoveryExactly(defs: Definitions, ops: seq<Op>, more: seq<Op>, id: TaskId, listing: seq<TaskId>, found: Time,
                        op: Op)
    requires Registered(defs) && id in Exec(defs, ops).tasks
    requires Load(defs, Exec(defs, ops), Exec(defs, ops).tasks[id].runId, listing).Ok?
    requires op.Submit? && RecoveryOf(Load(defs, Exec(defs, ops), Exec(defs, ops).tasks[id].runId, listing).value, id,
                                      found) == Some(op.req)
    requires Allowed(Exec(defs, ops + more), op)
    ensures var db, db1, db2 := Exec(defs, ops), Exec(defs, ops + more), Exec(defs, (ops + more) + [op]);
            var r := db.tasks[id].runId;
            && (EndsLease(db1, db2, id) <==> HeldBy(db1, id, db.tasks[id].leaseOwner))
            && HistoryOf(db.history, r) <= HistoryOf(db1.history, r)
            && (found <= op.now ==>
                  var since := LastGrant(HistoryOf(db1.history, r)[|HistoryOf(db.history, r)|..], id);
                  EndsLease(db1, db2, id) && Live(db1, id, op.now) <==>
                    HeldBy(db1, id, db.tasks[id].leaseOwner) && since.Some?
                    && since.value.payload.leaseExpiresAt > op.now)
  {
    hide Exec, Registered, Allowed, Load, RecoveryOf, HistoryOf, LastGrant, EndsLease;
    FoundLease(defs, ops, id, listing, found);
    TasksStay(defs, ops, more, id);
    FailureEndsExactly(defs, ops + more, op);
    var db, db1 := Exec(defs, ops), Exec(defs, ops + more);
    var r := db.tasks[id].runId;
    ExecGrows(defs, ops, more, r);
    var h, h1 := HistoryOf(db.history, r), HistoryOf(db1.history, r);
    assert h1 == h + h1[|h|..];
    GrantStays(h, h1[|h|..], id);
    LeaseIsLastGrant(defs, ops, id);
    if db1.tasks[id].status.Leased? { LeaseIsLastGrant(defs, ops + more, id); }
  }

  // ------------------------------------------------------------------ it does happen

  lemma HeartbeatRenews(defs: Definitions, ops: seq<Op>, id: TaskId, extendBy: int, now: Time) returns (op: Op)
    requires Registered(defs) && id in Exec(defs, ops).tasks && Exec(defs, ops).tasks[id].status.Leased?
    ensures var db, db' := Exec(defs, ops), Exec(defs, ops + [op]);
            && op == Heartbeat(id, db.tasks[id].leaseOwner, extendBy, now)
            && id in db'.tasks && db'.tasks[id] == RenewedRow(db.tasks[id], extendBy, now)
  {
    hide Exec, Registered, DbOk, HeartbeatTask, Advances;
    var db := Exec(defs, ops);
    ReachableOk(defs, ops);
    op := Heartbeat(id, db.tasks[id].leaseOwner, extendBy, now);
    HeartbeatAdvances(defs, db, id, db.tasks[id].leaseOwner, extendBy, now);
    ExecSnoc(defs, ops, op);
  }

  lemma LoadIsPossible(defs: Definitions, db: Db, r: RunId, listing: seq<TaskId>)
    requires DbOk(defs, db) && r in db.runs
    ensures Load(defs, db, r, listing).Ok?
  {
    hide Inv, Committed, LegalFrom, RowsAgree, RowsOf, Fold;
    assert RunOk(defs, db, r);
  }

  /** On any leased activity of a reachable store: recovery finds the lease expired, a heartbeat renews it, and
      recovery still fails it. */
  lemma RenewedLeaseIsFailed(defs: Definitions, ops: seq<Op>, id: TaskId) returns (found: Time, beat: Op, recover: Op)
    requires Registered(defs) && id in Exec(defs, ops).tasks
    requires Exec(defs, ops).tasks[id].status.Leased? && Exec(defs, ops).tasks[id].kind.Activity?
    ensures var db := Exec(defs, ops);
            && Load(defs, db, db.tasks[id].runId, []).Ok? && recover.Submit? && beat.Heartbeat?
            && RecoveryOf(Load(defs, db, db.tasks[id].runId, []).value, id, found) == Some(recover.req)
            && found <= beat.now <= recover.now && Allowed(Exec(defs, ops + [beat]), recover)
    ensures Live(Exec(defs, ops + [beat]), id, recover.now)
    ensures EndsLease(Exec(defs, ops + [beat]), Exec(defs, (ops + [beat]) + [recover]), id)
  {
    hide Exec, Registered, DbOk, RunOk, Load, RecoveryOf, Allowed;
    var db := Exec(defs, ops);
    ReachableOk(defs, ops);
    RunOfTask(defs, db, id);
    LoadIsPossible(defs, db, db.tasks[id].runId, []);
    LeaseIsLastGrant(defs, ops, id);
    found := db.tasks[id].leaseExpiresAt.value;
    FoundLease(defs, ops, id, [], found);
    beat := HeartbeatRenews(defs, ops, id, 2, found);
    recover := Submission(Exec(defs, ops + [beat]), FailRequest(db.tasks[id].leaseOwner, id, LEASE_EXPIRED, true),
                          found + 1);
    FailureEndsExactly(defs, ops + [beat], recover);
  }
}
