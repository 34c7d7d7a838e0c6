/** Leases: what the history says of them, who can end them, and when the heartbeat column agrees with replay. */
module Leases {
  import opened Prelude
  import opened Workflow
  import opened History
  import opened Engine
  import opened Reducer
  import opened Invariant
  import opened Chronicle
  import opened Commands
  import opened Tracking
  import opened Settled
  import opened CommandProofs
  import opened Tables
  import opened Runs
  import opened System
  import opened Operations
  import opened Histories
  import opened Guarantees
  import opened Footprint
  import opened Steps

  // ------------------------------------------------------------------ the heartbeat column

  /** The task that replaying the run's history gives. */
  ghost function ReplayedTask(defs: Definitions, db: Db, id: TaskId): Option<TaskState> {
    if id in db.tasks && db.tasks[id].runId in db.runs && db.runs[db.tasks[id].runId].workflowName in defs
    then
      var r := db.tasks[id].runId;
      var s := StateOf(defs[db.runs[r].workflowName], HistoryOf(db.history, r));
      if id in s.tasks then Some(s.tasks[id]) else None
    else None
  }

  /** The row says the same of the last heartbeat as replay does. */
  ghost predicate HeartbeatAgrees(defs: Definitions, db: Db, id: TaskId) {
    id in db.tasks && ReplayedTask(defs, db, id).Some?
      && db.tasks[id].heartbeatAt == ReplayedTask(defs, db, id).value.heartbeatAt
  }

  lemma StoreEventState(def: Definition, h: seq<Event>, e: Event)
    requires FoldCore(InitialCore(def), h).Ok? && ApplyCore(FoldCore(InitialCore(def), h).value, e).Ok?
    ensures StateOf(def, h + [e]) == ApplyCore(StateOf(def, h), e).value
  {
    hide ApplyCore, InitialCore;
    FoldCoreSnoc(InitialCore(def), h, e);
  }

  lemma TaskOfRow(defs: Definitions, db: Db, id: TaskId)
    requires DbOk(defs, db) && id in db.tasks
    ensures var r := db.tasks[id].runId;
            && r in db.runs && db.runs[r].workflowName in defs
            && var def, h := defs[db.runs[r].workflowName], HistoryOf(db.history, r);
            && FoldCore(InitialCore(def), h) == Ok(StateOf(def, h))
            && id in StateOf(def, h).tasks && RowAgrees(StateOf(def, h).tasks[id], db.tasks[id])
            && ReplayedTask(defs, db, id) == Some(StateOf(def, h).tasks[id])
  {
    RunOfTask(defs, db, id) by { hide DbOk, RunOk; }
    var r := db.tasks[id].runId;
    RunOkView(defs, db, r) by { hide DbOk, RunOk, ViewOk; }
    hide DbOk, RunOk, ViewOk, RowAgrees, InitialCore, FoldCore;
    var def, v := defs[db.runs[r].workflowName], ViewOf(db, r);
    Facts(def, v);
    LegalHistory(def, v);
    hide Inv, Committed, Replay, LegalFrom;
    assert RowAt(StateOf(def, v.history).tasks, v.tasks, v.run.id, id);
  }

  lemma LeaseAppliesTo(s: Core, e: Event, id: TaskId)
    requires id in s.tasks && e.payload.TaskLeased? && e.payload.taskId == id
    ensures ApplyCore(s, e).Ok? && id in ApplyCore(s, e).value.tasks
    ensures ApplyCore(s, e).value.tasks[id].heartbeatAt == s.tasks[id].heartbeatAt
  {
  }

  lemma HeartbeatAppliesTo(s: Core, e: Event, id: TaskId)
    requires id in s.tasks && e.payload.TaskHeartbeat? && e.taskId == Some(id)
    ensures ApplyCore(s, e).Ok? && id in ApplyCore(s, e).value.tasks
    ensures ApplyCore(s, e).value.tasks[id].heartbeatAt == Some(e.createdAt)
  {
  }

  /** Leasing sets the column in the row only: it agrees with replay just when replay already had a heartbeat at that
      very time. */
  lemma LeaseHidesHeartbeat(defs: Definitions, db: Db, id: TaskId, worker: string, ttl: int, now: Time)
    requires DbOk(defs, db)
    requires id in db.tasks && db.tasks[id].status.Available? && db.tasks[id].kind.Activity?
             && db.tasks[id].availableAt < now + SECOND
    ensures ReplayedTask(defs, db, id).Some? && LeaseOne(db, id, worker, ttl, now).Ok?
    ensures HeartbeatAgrees(defs, LeaseOne(db, id, worker, ttl, now).value, id)
            <==> ReplayedTask(defs, db, id).value.heartbeatAt == Some(now)
  {
    hide DbOk, Advances, LeaseOne, StateOf, RowAgrees, RowsOf, FoldCore, InitialCore;
    TaskOfRow(defs, db, id);
    LeaseOneAdvances(defs, db, id, worker, ttl, now);
    var r := db.tasks[id].runId;
    var def, h := defs[db.runs[r].workflowName], HistoryOf(db.history, r);
    var e := LeaseEvent(ViewOf(db, r), id, worker, ttl, now);
    LeaseAppliesTo(StateOf(def, h), e, id);
    StoreEventState(def, h, e);
  }

  /** A heartbeat sets it in both. */
  lemma HeartbeatRestores(defs: Definitions, db: Db, id: TaskId, worker: string, extendBy: int, now: Time)
    requires DbOk(defs, db)
    requires id in db.tasks && db.tasks[id].status.Leased? && db.tasks[id].leaseOwner == worker
    ensures HeartbeatTask(db, id, worker, extendBy, now).Ok?
    ensures HeartbeatAgrees(defs, HeartbeatTask(db, id, worker, extendBy, now).value, id)
  {
    hide DbOk, Advances, HeartbeatTask, StateOf, RowAgrees, RowsOf, FoldCore, InitialCore;
    TaskOfRow(defs, db, id);
    HeartbeatAdvances(defs, db, id, worker, extendBy, now);
    var r := db.tasks[id].runId;
    var def, h := defs[db.runs[r].workflowName], HistoryOf(db.history, r);
    var e := HeartbeatEvent(ViewOf(db, r), id, worker, extendBy, now);
    HeartbeatAppliesTo(StateOf(def, h), e, id);
    StoreEventState(def, h, e);
  }

  // ------------------------------------------------------------------ leases in the history

  /** The event grants or renews a lease of task `id`. */
  predicate Grants(e: Event, id: TaskId) {
    (e.payload.TaskLeased? || e.payload.TaskHeartbeat?) && e.payload.taskId == id
  }

  function LastGrant(events: seq<Event>, id: TaskId): (last: Option<Event>)
    ensures last.Some? ==> Grants(last.value, id)
  {
    if |events| == 0 then None
    else if Grants(events[|events| - 1], id) then Some(events[|events| - 1])
    else LastGrant(events[..|events| - 1], id)
  }

  lemma {:induction false} GrantStays(events: seq<Event>, more: seq<Event>, id: TaskId)
    ensures LastGrant(events + more, id) == if LastGrant(more, id).Some? then LastGrant(more, id)
              else LastGrant(events, id)
  {
    if more == [] {
      assert events + more == events;
    } else {
      GrantStays(events, more[..|more| - 1], id);
      assert (events + more)[..|events + more| - 1] == events + more[..|more| - 1];
      assert (events + more)[|events + more| - 1] == more[|more| - 1];
    }
  }

  lemma {:induction false} NoGrant(events: seq<Event>, id: TaskId)
    requires forall i :: 0 <= i < |events| ==> !FromStore(events[i].payload)
    ensures LastGrant(events, id).None?
  {
    if events != [] { NoGrant(events[..|events| - 1], id); }
  }

  /** A leased row shows what the last lease or heartbeat of its task says. */
  predicate GrantShown(v: View, id: TaskId) {
    id in v.tasks && v.tasks[id].status.Leased? ==>
      && LastGrant(v.history, id).Some?
      && var last, row := LastGrant(v.history, id).value, v.tasks[id];
      && row.leaseOwner == last.payload.workerId && row.leaseExpiresAt == Some(last.payload.leaseExpiresAt)
      && row.heartbeatAt == Some(last.createdAt)
  }

  ghost predicate GrantsShown(v: View) {
    forall id :: GrantShown(v, id)
  }

  lemma GrantsKeptByStore()
    ensures KeptByStore(v => GrantsShown(v))
  {
    hide GrantShown;
    forall v, v', id, e {:trigger StoreStep(v, v', id, e)} | GrantsShown(v) && StoreStep(v, v', id, e)
        ensures GrantsShown(v') {
      forall k ensures GrantShown(v', k) {
        assert GrantShown(v, k);
        StoreGrant(v, v', id, e, k);
      }
    }
  }

  lemma StoreGrant(v: View, v': View, id: TaskId, e: Event, k: TaskId)
    requires StoreStep(v, v', id, e) && GrantShown(v, k)
    ensures GrantShown(v', k)
  {
    assert v'.history[..|v'.history| - 1] == v.history;
  }

  lemma GrantsKeptByCommands()
    ensures KeptByCommands(v => GrantsShown(v))
  {
    hide CommandStep, GrantShown;
    forall v, v', env, ld, req, w {:trigger CommandStep(v, v', env, ld, req, w)}
      | GrantsShown(v) && CommandStep(v, v', env, ld, req, w) ensures GrantsShown(v')
    {
      CommandWrites(v, v', env, ld, req, w);
      NothingFromStore(ld, req, w.events, w.mutations);
      forall k ensures GrantShown(v', k) {
        assert GrantShown(v, k);
        CommandGrant(v, v', w, Target(req), k);
      }
    }
  }

  lemma NothingFromStore(ld: Loaded, req: Request, events: seq<Event>, mutations: seq<Mutation>)
    requires WritesOnly(ld, req, events, mutations)
    ensures forall i :: 0 <= i < |events| ==> !FromStore(events[i].payload)
    ensures forall i :: 0 <= i < |mutations| ==> Touches(mutations[i], Target(req))
  {
    hide Touches;
    forall i | 0 <= i < |events| ensures !FromStore(events[i].payload) {
      if i > 0 { assert Consequent(events[i]); }
    }
  }

  lemma CommandGrant(v: View, v': View, w: Work, id: Option<TaskId>, k: TaskId)
    requires v'.history == v.history + w.events && v'.tasks == Mutated(v.tasks, w.mutations)
    requires forall i :: 0 <= i < |w.events| ==> !FromStore(w.events[i].payload)
    requires forall i :: 0 <= i < |w.mutations| ==> Touches(w.mutations[i], id)
    requires GrantShown(v, k)
    ensures GrantShown(v', k)
  {
    hide Mutated, Touches;
    if k in v'.tasks && v'.tasks[k].status.Leased? {
      LeasedRowsStay(v.tasks, w.mutations, id, k);
      NoGrant(w.events, k);
      GrantStays(v.history, w.events, k);
    }
  }

  lemma GrantsHoldAtStart()
    ensures HoldsAtStart(v => GrantsShown(v))
  {
    hide ValidDefinition, Fresh, StartedRow, Mutated;
    forall env, def, input, w {:trigger StartStep(env, def, input, w)} | StartStep(env, def, input, w)
      ensures GrantsShown(StartView(env, def, input, w))
    {
      StartsUnleased(env, def, input, w);
    }
  }

  lemma StartsUnleased(env: Env, def: Definition, input: Json, w: Work)
    requires StartWork(env, def, input) == Ok(w)
    ensures forall k :: k in Mutated(map[], w.mutations) ==> !Mutated(map[], w.mutations)[k].status.Leased?
  {
    hide ScheduleForwardReady, Mutated, Fold;
    var started, run := StartedEvent(env, def.name, NormalizeJson(input)), NewRun(env, def.name, NormalizeJson(input));
    ReadyFollows(env, Work(Replay(def, run, [started]).value, 2, [started], []), def.order, None);
    hide Touches;
    forall k | k in Mutated(map[], w.mutations) ensures !Mutated(map[], w.mutations)[k].status.Leased? {
      if Mutated(map[], w.mutations)[k].status.Leased? { LeasedRowsStay(map[], w.mutations, None, k); }
    }
  }

  /** In every reachable store, owner, expiry and heartbeat time of a leased task are those of the last lease or
      heartbeat in its history. */
  lemma LeaseIsLastGrant(defs: Definitions, ops: seq<Op>, id: TaskId)
    requires Registered(defs) && id in Exec(defs, ops).tasks && Exec(defs, ops).tasks[id].status.Leased?
    ensures var db := Exec(defs, ops);
            && var row := db.tasks[id];
            && var last := LastGrant(HistoryOf(db.history, row.runId), id);
            && last.Some?
            && row.leaseOwner == last.value.payload.workerId
                 && row.leaseExpiresAt == Some(last.value.payload.leaseExpiresAt)
            && row.heartbeatAt == Some(last.value.createdAt)
  {
    hide Exec, Registered, DbOk, RunOk, KeptByStore, KeptByCommands, HoldsAtStart, LastGrant;
    var db := Exec(defs, ops);
    ReachableOk(defs, ops);
    RunOfTask(defs, db, id);
    GrantsKeptByStore();
    GrantsKeptByCommands();
    GrantsHoldAtStart();
    EveryView(defs, ops, db.tasks[id].runId, v => GrantsShown(v));
    assert GrantShown(ViewOf(db, db.tasks[id].runId), id);
  }

  // ------------------------------------------------------------------ when the heartbeat column agrees

  /** The time of the last heartbeat of task `id`. */
  function LastBeat(events: seq<Event>, id: TaskId): Option<Time> {
    if |events| == 0 then None
    else
      var e := events[|events| - 1];
      if e.payload.TaskHeartbeat?
        && e.payload.taskId == id then Some(e.createdAt) else LastBeat(events[..|events| - 1], id)
  }

  predicate SameBeat(s: Core, s': Core, id: TaskId) {
    && (id in s'.tasks <==> id in s.tasks)
    && (id in s.tasks ==> s'.tasks[id].heartbeatAt == s.tasks[id].heartbeatAt)
  }

  lemma MoveSameBeat(s: Core, e: Event, id: TaskId)
    requires e.payload.TaskLeased? || e.payload.TaskFailed? || e.payload.TaskRetryScheduled? || e.payload.TaskCancelled?
    requires ApplyCore(s, e).Ok?
    ensures SameBeat(s, ApplyCore(s, e).value, id)
  {
  }

  lemma EndSameBeat(s: Core, e: Event, id: TaskId)
    requires e.payload.TaskCompleted? || e.payload.TimerFired? || e.payload.TaskLeaseExpired?
    requires ApplyCore(s, e).Ok?
    ensures SameBeat(s, ApplyCore(s, e).value, id)
  {
  }

  /** An event that neither schedules a task nor renews a lease leaves all heartbeat times alone. */
  lemma EventWithoutBeat(s: Core, e: Event, id: TaskId)
    requires !e.payload.TaskScheduled? && !e.payload.TaskHeartbeat? && ApplyCore(s, e).Ok?
    ensures SameBeat(s, ApplyCore(s, e).value, id)
  {
    var p := e.payload;
    if p.TaskLeased? || p.TaskFailed? || p.TaskRetryScheduled? || p.TaskCancelled? {
      hide ApplyCore;
      MoveSameBeat(s, e, id);
    } else if p.TaskCompleted? || p.TimerFired? || p.TaskLeaseExpired? {
      hide ApplyCore;
      EndSameBeat(s, e, id);
    }
  }

  lemma EventBeat(s: Core, e: Event, id: TaskId)
    requires Legal(s, e) && ApplyCore(s, e).Ok?
    ensures var s' := ApplyCore(s, e).value;
            && (id in s.tasks ==> id in s'.tasks)
            && (id in s'.tasks ==>
                  s'.tasks[id].heartbeatAt ==
                  if e.payload.TaskHeartbeat? && e.payload.taskId == id then Some(e.createdAt)
                  else if id in s.tasks then s.tasks[id].heartbeatAt
                  else None)
            && (e.payload.TaskHeartbeat? && e.payload.taskId == id ==> id in s.tasks)
  {
    if !e.payload.TaskScheduled? && !e.payload.TaskHeartbeat? {
      hide Legal, ApplyCore;
      EventWithoutBeat(s, e, id);
    } else {
      hide LatestEligible, DependenciesCompleted, FitsStep;
    }
  }

  /** Replay shows the last heartbeat, and leases make no difference to it. */
  lemma {:induction false} ReplayedBeat(def: Definition, events: seq<Event>, id: TaskId)
    requires LegalFrom(InitialCore(def), events)
    ensures id in StateOf(def, events).tasks ==> StateOf(def, events).tasks[id].heartbeatAt == LastBeat(events, id)
    ensures id !in StateOf(def, events).tasks ==> LastBeat(events, id).None?
  {
    hide Inv, Legal, ApplyCore, StateOf, LegalFrom;
    if events == [] {
      StateOfEmpty(def);
    } else {
      var init, e := events[..|events| - 1], events[|events| - 1];
      StateStep(def, events);
      ReplayedBeat(def, init, id);
      EventBeat(StateOf(def, init), e, id);
    }
  }

  lemma BeatOfGrant(events: seq<Event>, id: TaskId)
    requires LastGrant(events, id).Some? && LastGrant(events, id).value.payload.TaskHeartbeat?
    ensures LastBeat(events, id) == Some(LastGrant(events, id).value.createdAt)
  {
  }

  /** The last lease or heartbeat of the task was a heartbeat, or a lease at the very time of the last heartbeat. */
  predicate BeatenLast(events: seq<Event>, id: TaskId) {
    && LastGrant(events, id).Some?
    && (LastGrant(events, id).value.payload.TaskHeartbeat?
         || LastBeat(events, id) == Some(LastGrant(events, id).value.createdAt))
  }

  /** In every reachable store the heartbeat column agrees with replay unless the task is leased and has had no
      heartbeat since. */
  lemma HeartbeatAgreesExactly(defs: Definitions, ops: seq<Op>, id: TaskId)
    requires Registered(defs) && id in Exec(defs, ops).tasks
    ensures var db := Exec(defs, ops);
            HeartbeatAgrees(defs, db, id)
            <==> (db.tasks[id].status.Leased? ==> BeatenLast(HistoryOf(db.history, db.tasks[id].runId), id))
  {
    hide Exec, Registered, DbOk, StateOf, LastGrant, LastBeat, HistoryOf, LegalFrom, ValidDefinition, InitialCore,
         FoldCore;
    var db := Exec(defs, ops);
    ReachableOk(defs, ops);
    TaskOfRow(defs, db, id);
    var r := db.tasks[id].runId;
    var h := HistoryOf(db.history, r);
    ReachableHistory(defs, ops, r);
    ReplayedBeat(defs[db.runs[r].workflowName], h, id);
    if db.tasks[id].status.Leased? {
      LeaseIsLastGrant(defs, ops, id);
      if LastGrant(h, id).value.payload.TaskHeartbeat? { BeatOfGrant(h, id); }
    }
  }

  /** Any task that can be leased can be made to disagree. */
  lemma LeaseDisagrees(defs: Definitions, ops: seq<Op>, id: TaskId) returns (op: Op)
    requires Registered(defs) && id in Exec(defs, ops).tasks
    requires Exec(defs, ops).tasks[id].status.Available? && Exec(defs, ops).tasks[id].kind.Activity?
    ensures op.Lease? && Allowed(Exec(defs, ops), op) && !HeartbeatAgrees(defs, Exec(defs, ops + [op]), id)
  {
    hide Exec, Registered, DbOk, ReplayedTask, HeartbeatAgrees, LeaseOne;
    var db := Exec(defs, ops);
    var row := db.tasks[id];
    ReachableOk(defs, ops);
    LeaseHidesHeartbeat(defs, db, id, "", 0, row.availableAt);
    var beat := ReplayedTask(defs, db, id).value.heartbeatAt;
    var now := if beat == Some(row.availableAt) then row.availableAt + 1 else row.availableAt;
    op := Lease(row.queue, "", 1, [id], 0, now);
    LeaseHidesHeartbeat(defs, db, id, "", 0, now);
    assert [id][..0] == [];
    assert LeaseTasks(db, [id], "", 0, now) == LeaseOne(db, id, "", 0, now);
    ExecSnoc(defs, ops, op);
  }

  // ------------------------------------------------------------------ a lease is exclusive

  /** The operation comes from the worker that holds the lease, or cancels the run. */
  predicate MayEnd(row: TaskRecord, id: TaskId, op: Op) {
    match op
    case Start(_, _, _, _, _) => false
    case Lease(_, _, _, _, _, _) => false
    case Heartbeat(task, worker, _, _) => task == id && worker == row.leaseOwner
    case Submit(req, _, _, _) =>
      match req
      case CompleteRequest(worker, task, _) => task == id && worker == row.leaseOwner
      case FailRequest(worker, task, _, _) => task == id && worker == row.leaseOwner
      case FireRequest(_) => false
      case CancelRequest(run, _) => run == row.runId
  }

  lemma OtherCommand(v: View, v': View, env: Env, ld: Loaded, req: Request, w: Work, id: TaskId)
    requires CommandStep(v, v', env, ld, req, w) && id in v.tasks && !req.CancelRequest? && req.task != id
    ensures id in v'.tasks && v'.tasks[id] == v.tasks[id]
  {
    CommandWrites(v, v', env, ld, req, w) by { hide CommandStep, WritesOnly; }
    NothingFromStore(ld, req, w.events, w.mutations) by { hide CommandStep, WritesOnly; }
    CommandIsProper(v, v', env, ld, req, w) by { hide CommandStep; }
    hide CommandStep, WritesOnly, Touches, AllProper, Mutated;
    OtherRowsStay(v.tasks, env, w.mutations, req.task, id);
  }

  lemma CommandIsProper(v: View, v': View, env: Env, ld: Loaded, req: Request, w: Work)
    requires CommandStep(v, v', env, ld, req, w)
    ensures AllProper(v.tasks, env, w.mutations)
  {
    hide LoadedOk, Execute, Chained, Committed, Mutated, AllProper;
  }

  /** On a leased activity, a worker that does not hold the lease is turned away, and no timer fires. */
  lemma OnlyHolderCommands(v: View, v': View, env: Env, ld: Loaded, req: Request, w: Work, id: TaskId)
    requires CommandStep(v, v', env, ld, req, w) && !req.CancelRequest? && req.task == id
    requires id in v.tasks && v.tasks[id].status.Leased?
    ensures (req.CompleteRequest? || req.FailRequest?) && req.worker == v.tasks[id].leaseOwner
  {
    hide Final, CompleteWork, FailEvent, RetryWork, FinalFailureWork, FireWork, Retries, Inv, Committed, Fresh,
         ValidDefinition;
    RowFacts(ld.state.core.tasks, ld.tasks, env.runId, id);
  }

  /** No operation changes a leased task but those of the worker that holds the lease, and a cancellation of the run. */
  lemma LeaseIsExclusive(defs: Definitions, ops: seq<Op>, op: Op, id: TaskId)
    requires Registered(defs) && id in Exec(defs, ops).tasks && Exec(defs, ops).tasks[id].status.Leased?
    requires !MayEnd(Exec(defs, ops).tasks[id], id, op)
    ensures id in Exec(defs, ops + [op]).tasks && Exec(defs, ops + [op]).tasks[id] == Exec(defs, ops).tasks[id]
  {
    hide Exec, Registered, DbOk, RunOk, Next, MayEnd;
    var db := Exec(defs, ops);
    ReachableOk(defs, ops);
    ExecSnoc(defs, ops, op);
    RunOfTask(defs, db, id);
    NextExcludes(defs, db, op, id);
  }

  lemma NextExcludes(defs: Definitions, db: Db, op: Op, id: TaskId)
    requires Registered(defs) && DbOk(defs, db) && id in db.tasks && db.tasks[id].runId in db.runs
    requires db.tasks[id].status.Leased? && !MayEnd(db.tasks[id], id, op)
    ensures id in Next(defs, db, op).tasks && Next(defs, db, op).tasks[id] == db.tasks[id]
  {
    hide Registered, DbOk, Next, SubmitsTo, CommandStep;
    var r := db.tasks[id].runId;
    if SubmitsTo(defs, db, op, r) {
      SubmitIsLoaded(defs, db, op, r);
      SubmitsToItsRun(defs, db, op, r);
      var w := SubmitStep(defs, db, op, r);
      var ld := LoadOf(defs, db, op, r);
      if !op.req.CancelRequest? {
        var v, v' := ViewOf(db, r), ViewOf(Next(defs, db, op), r);
        if op.req.task == id {
          OnlyHolderCommands(v, v', Env(r, op.now, op.uuid), ld, op.req, w, id);
        } else {
          OtherCommand(v, v', Env(r, op.now, op.uuid), ld, op.req, w, id);
        }
      }
    } else {
      OtherOperation(defs, db, op, id);
    }
  }

  lemma OtherOperation(defs: Definitions, db: Db, op: Op, id: TaskId)
    requires Registered(defs) && DbOk(defs, db) && id in db.tasks && db.tasks[id].runId in db.runs
    requires db.tasks[id].status.Leased? && !MayEnd(db.tasks[id], id, op)
             && !SubmitsTo(defs, db, op, db.tasks[id].runId)
    ensures id in Next(defs, db, op).tasks && Next(defs, db, op).tasks[id] == db.tasks[id]
  {
    hide Registered, DbOk, Launch, LeaseTasks, HeartbeatTask, Command, NewIds, Selected, Enabled, SubmitsTo;
    var r := db.tasks[id].runId;
    assert id in ViewOf(db, r).tasks;
    if Allowed(db, op) && Perform(defs, db, op).Ok? {
      match op
      case Start(runId, workflow, input, now, uuid) => LaunchElsewhere(defs, db, runId, workflow, input, now, uuid, r);
      case Lease(queue, worker, limit, ids, ttl, now) =>
        NotSelected(db, queue, ids, limit, now, id);
        LeaseTasksEvolves(defs, db, queue, limit, ids, worker, ttl, now) by { hide Evolves; }
      case Heartbeat(task, worker, extendBy, now) =>
        HeartbeatHolds(db, task, worker, extendBy, now);
        HeartbeatElsewhere(defs, db, task, worker, extendBy, now, id);
      case Submit(_, _, _, _) => CommandElsewhere(defs, db, op, r);
    }
  }

  lemma HeartbeatElsewhere(defs: Definitions, db: Db, task: TaskId, worker: string, extendBy: int, now: Time,
                           id: TaskId)
    requires DbOk(defs, db) && id in db.tasks && db.tasks[id].runId in db.runs && id != task
    requires HeartbeatTask(db, task, worker, extendBy, now).Ok?
    ensures var db' := HeartbeatTask(db, task, worker, extendBy, now).value;
            id in db'.tasks && db'.tasks[id] == db.tasks[id]
  {
    hide DbOk, HeartbeatTask, RowStep;
    var r := db.tasks[id].runId;
    HeartbeatStep(defs, db, task, worker, extendBy, now, r);
    var db' := HeartbeatTask(db, task, worker, extendBy, now).value;
    assert id in ViewOf(db, r).tasks;
    assert id in ViewOf(db', r).tasks && ViewOf(db', r).tasks[id] == db.tasks[id];
  }

  lemma NotSelected(db: Db, queue: string, ids: seq<TaskId>, limit: int, now: Time, id: TaskId)
    requires Selected(db, queue, ids, limit, now) && id in db.tasks && !db.tasks[id].status.Available?
    ensures id !in ids
  {
    assert forall i :: 0 <= i < |ids| ==> Selectable(db, queue, ids[i], now);
  }

  lemma SubmitsToItsRun(defs: Definitions, db: Db, op: Op, r: RunId)
    requires SubmitsTo(defs, db, op, r)
    ensures op.Submit? && (op.req.CancelRequest? ==> op.req.run == r)
  {
    hide Allowed, Execute, Load;
  }

  // ------------------------------------------------------------------ what leasing and renewing do

  /** The row has been leased to `worker`, and nothing else about it has changed. */
  predicate HasBeenLeased(row: TaskRecord, row': TaskRecord, worker: string, ttl: int, now: Time) {
    row' == row.(status := Leased, leaseOwner := worker, leaseExpiresAt := Some(now + ttl), heartbeatAt := Some(now),
                 updatedAt := now)
  }

  lemma LeaseOneGrants(defs: Definitions, db: Db, id: TaskId, worker: string, ttl: int, now: Time)
    requires DbOk(defs, db)
    requires id in db.tasks && db.tasks[id].status.Available? && db.tasks[id].kind.Activity?
             && db.tasks[id].availableAt < now + SECOND
    ensures LeaseOne(db, id, worker, ttl, now).Ok?
    ensures var db' := LeaseOne(db, id, worker, ttl, now).value;
            && id in db'.tasks && HasBeenLeased(db.tasks[id], db'.tasks[id], worker, ttl, now)
            && (forall k :: k in db.tasks && k != id ==> k in db'.tasks && db'.tasks[k] == db.tasks[k])
  {
    hide DbOk, LeaseOne, Advances;
    LeaseOneAdvances(defs, db, id, worker, ttl, now);
  }

  lemma {:induction false} LeaseTasksGrant(defs: Definitions, db: Db, queue: string, limit: int, ids: seq<TaskId>,
                                           worker: string, ttl: int, now: Time)
    requires DbOk(defs, db) && Selected(db, queue, ids, limit, now)
    ensures LeaseTasks(db, ids, worker, ttl, now).Ok?
    ensures var db' := LeaseTasks(db, ids, worker, ttl, now).value;
            && (forall k :: k in ids ==>
                  k in db.tasks && k in db'.tasks && HasBeenLeased(db.tasks[k], db'.tasks[k], worker, ttl, now))
            && (forall k :: k in db.tasks && k !in ids ==> k in db'.tasks && db'.tasks[k] == db.tasks[k])
  {
    hide DbOk, Evolves, LeaseOne, HasBeenLeased;
    if ids != [] {
      var init, id := ids[..|ids| - 1], ids[|ids| - 1];
      assert forall i {:trigger init[i]} :: 0 <= i < |init| ==> init[i] == ids[i];
      assert id !in init && Selectable(db, queue, id, now);
      LeaseTasksGrant(defs, db, queue, limit, init, worker, ttl, now);
      LeaseTasksEvolves(defs, db, queue, limit, init, worker, ttl, now);
      LeaseOneGrants(defs, LeaseTasks(db, init, worker, ttl, now).value, id, worker, ttl, now);
      assert forall k :: k in ids <==> k in init || k == id;
    }
  }

  /** Leasing always succeeds, and leases exactly the selected tasks, which all wait in the queue asked for: to the
      worker that asked, for the time it asked for. */
  lemma LeaseGrantsExactly(defs: Definitions, ops: seq<Op>, op: Op)
    requires Registered(defs) && op.Lease? && Allowed(Exec(defs, ops), op)
    ensures var db, db' := Exec(defs, ops), Exec(defs, ops + [op]);
            && (forall k :: k in op.ids ==>
                  && k in db.tasks && k in db'.tasks
                  && db.tasks[k].status.Available? && db.tasks[k].kind.Activity? && db.tasks[k].queue == op.queue
                  && db.tasks[k].availableAt < op.now + SECOND
                  && HasBeenLeased(db.tasks[k], db'.tasks[k], op.worker, op.ttl, op.now))
            && (forall k :: k in db.tasks && k !in op.ids ==> k in db'.tasks && db'.tasks[k] == db.tasks[k])
  {
    hide Exec, Registered, DbOk, LeaseTasks, HasBeenLeased;
    var db := Exec(defs, ops);
    ReachableOk(defs, ops);
    ExecSnoc(defs, ops, op);
    LeaseTasksGrant(defs, db, op.queue, op.limit, op.ids, op.worker, op.ttl, op.now);
    forall k | k in op.ids ensures Selectable(db, op.queue, k, op.now) {
      var i :| 0 <= i < |op.ids| && op.ids[i] == k;
    }
  }

  /** A heartbeat succeeds exactly for the worker that holds the lease, and renews it for the time asked for from now
      on. */
  lemma HeartbeatRenewsExactly(defs: Definitions, ops: seq<Op>, op: Op)
    requires Registered(defs) && op.Heartbeat?
    ensures var db, db', id := Exec(defs, ops), Exec(defs, ops + [op]), op.task;
            var held := id in db.tasks && db.tasks[id].status.Leased? && db.tasks[id].leaseOwner == op.worker;
            && (Perform(defs, db, op).Ok? <==> held)
            && (held ==>
                  && id in db'.tasks
                  && db'.tasks[id] == db.tasks[id].(heartbeatAt := Some(op.now), updatedAt := op.now,
                                                    leaseExpiresAt := Some(op.now + op.extendBy))
                  && forall k :: k in db.tasks && k != id ==> k in db'.tasks && db'.tasks[k] == db.tasks[k])
            && (!held ==> db' == db)
  {
    hide Exec, Registered, DbOk, HeartbeatTask, Advances;
    var db := Exec(defs, ops);
    ReachableOk(defs, ops);
    ExecSnoc(defs, ops, op);
    if id :| id == op.task && id in db.tasks && db.tasks[id].status.Leased? && db.tasks[id].leaseOwner == op.worker {
      HeartbeatAdvances(defs, db, op.task, op.worker, op.extendBy, op.now);
    } else if HeartbeatTask(db, op.task, op.worker, op.extendBy, op.now).Ok? {
      HeartbeatHolds(db, op.task, op.worker, op.extendBy, op.now);
    }
  }
}
