/** The invariant of one run's rows, and that every command and every lease keeps it. */
module Runs {
  import opened Prelude
  import opened Workflow
  import opened History
  import opened Engine
  import opened Reducer
  import opened Invariant
  import opened Chronicle
  import opened Commands
  import opened Tracking
  import opened Settled
  import opened CommandProofs
  import opened CancelProofs
  import opened Tables

  predicate OfRun(events: seq<Event>, runId: RunId) {
    forall i :: 0 <= i < |events| ==> events[i].runId == runId
  }

  /** The history is numbered 1..n with n the version, every event in it was legal, and row and tables say what replay
      says. */
  ghost predicate ViewOk(def: Definition, v: View) {
    && |v.history| >= 1 && v.history[0].payload.WorkflowStarted?
    && v.run.version == |v.history| && Numbered(v.history) && OfRun(v.history, v.run.id)
    && LegalFrom(InitialCore(def), v.history)
    && Replay(def, v.run, v.history).Ok?
    && var s := Replay(def, v.run, v.history).value;
    && Inv(def, s.core)
    && Committed(v.run.status, s.core)
    && RowsAgree(s.core.tasks, v.tasks, v.run.id)
    && SummaryMatches(v.run, s.run)
  }

  lemma LegalHistory(def: Definition, v: View)
    requires ViewOk(def, v)
    ensures LegalFrom(InitialCore(def), v.history) && FoldCore(InitialCore(def), v.history).Ok?
    ensures Replay(def, v.run, v.history).Ok?
    ensures Replay(def, v.run, v.history).value.core == FoldCore(InitialCore(def), v.history).value
  {
    hide Inv, Committed, LegalFrom, RowsAgree, FoldCore, Fold;
    FoldIsCoreFold(Initial(def, v.run), v.history);
  }

  /** What the replay report compares, except for the failure text. */
  predicate SummaryMatches(stored: RunRecord, replayed: RunRecord) {
    && stored.status == replayed.status
    && stored.output == replayed.output
    && stored.cancelReason == replayed.cancelReason
  }

  // ------------------------------------------------------------------ replay from another stored summary

  /** A field was set by the events alike, or still is what the stored record said. */
  predicate Follows<T(==)>(stored: T, replayed: T, stored': T, replayed': T) {
    replayed' == replayed || (replayed == stored && replayed' == stored')
  }

  predicate FieldsFollow(stored: RunRecord, replayed: RunRecord, stored': RunRecord, replayed': RunRecord) {
    && Follows(stored.status, replayed.status, stored'.status, replayed'.status)
    && Follows(stored.output, replayed.output, stored'.output, replayed'.output)
    && Follows(stored.cancelReason, replayed.cancelReason, stored'.cancelReason, replayed'.cancelReason)
  }

  lemma {:induction false} ReplayFromOtherSummary(def: Definition, stored: RunRecord, stored': RunRecord,
                                                  events: seq<Event>)
    requires Replay(def, stored, events).Ok?
    ensures Replay(def, stored', events).Ok?
    ensures Replay(def, stored', events).value.core == Replay(def, stored, events).value.core
    ensures FieldsFollow(stored, Replay(def, stored, events).value.run, stored', Replay(def, stored', events).value.run)
  {
    FoldIsCoreFold(Initial(def, stored), events);
    FoldIsCoreFold(Initial(def, stored'), events);
    hide ApplyCore, ApplyRun;
    if events != [] {
      hide FieldsFollow;
      var init, e := events[..|events| - 1], events[|events| - 1];
      ReplayFromOtherSummary(def, stored, stored', init);
      var s, s' := Fold(Initial(def, stored), init).value, Fold(Initial(def, stored'), init).value;
      EventsFollow(stored, s.run, stored', s'.run, s.core.cancelRequested, e);
    } else {
      assert FieldsFollow(stored, Initial(def, stored).run, stored', Initial(def, stored').run);
    }
  }

  lemma EventsFollow(stored: RunRecord, r: RunRecord, stored': RunRecord, r': RunRecord, cancelRequested: bool,
                     e: Event)
    requires FieldsFollow(stored, r, stored', r')
    ensures FieldsFollow(stored, ApplyRun(r, cancelRequested, e), stored', ApplyRun(r', cancelRequested, e))
  {
    hide Follows;
    SetAlike(r, r', cancelRequested, e);
    assert forall x: RunStatus, y: RunStatus, z: RunStatus :: Follows(x, z, y, z) by { SameFollows<RunStatus>(); }
    assert forall x: Option<Json>, y: Option<Json>, z: Option<Json> ::
             Follows(x, z, y, z) by { SameFollows<Option<Json>>(); }
    assert forall x: string, y: string, z: string :: Follows(x, z, y, z) by { SameFollows<string>(); }
    hide ApplyRun;
  }

  lemma SameFollows<T(!new)>()
    ensures forall x: T, y: T, z: T :: Follows(x, z, y, z)
  {
  }

  /** An event sets a field to the same value in both records, or leaves it alone in both. */
  lemma SetAlike(r: RunRecord, r': RunRecord, cancelRequested: bool, e: Event)
    ensures var n, n' := ApplyRun(r, cancelRequested, e), ApplyRun(r', cancelRequested, e);
            && (n.status == n'.status || (n.status == r.status && n'.status == r'.status))
            && (n.output == n'.output || (n.output == r.output && n'.output == r'.output))
            && (n.cancelReason == n'.cancelReason
                 || (n.cancelReason == r.cancelReason && n'.cancelReason == r'.cancelReason))
  {
  }

  // ------------------------------------------------------------------ loading

  /** What a command makes of a run row, a history and task rows, wherever they were read. */
  function LoadFrom(defs: map<string, Definition>, run: RunRecord, events: seq<Event>, listing: seq<TaskId>,
                    tasks: map<TaskId, TaskRecord>): Result<Loaded, Error> {
    if run.workflowName !in defs then Err(WorkflowNotFound)
    else
      var state :- Replay(defs[run.workflowName], run, events);
      Ok(Loaded(run, defs[run.workflowName], events, state, listing, tasks))
  }

  /** A listing of the task rows: each once. */
  ghost predicate Lists(listing: seq<TaskId>, tasks: map<TaskId, TaskRecord>) {
    NoDup(listing) && forall id :: id in listing <==> id in tasks
  }

  lemma LoadIsOk(defs: map<string, Definition>, env: Env, v: View, listing: seq<TaskId>)
    requires v.run.workflowName in defs && ValidDefinition(defs[v.run.workflowName])
    requires ViewOk(defs[v.run.workflowName], v) && env.runId == v.run.id
    requires Lists(listing, v.tasks)
             && Fresh(env, Replay(defs[v.run.workflowName], v.run, v.history).value.core.tasks, 0)
    ensures LoadFrom(defs, v.run, v.history, listing, v.tasks).Ok?
    ensures LoadedOk(env, LoadFrom(defs, v.run, v.history, listing, v.tasks).value)
  {
    hide Inv, Committed, RowsAgree, LegalFrom, Replay;
  }

  // ------------------------------------------------------------------ committing

  function Committing(v: View, run: RunRecord, events: seq<Event>, mutations: seq<Mutation>): View {
    View(RunColumns(v.run, run), v.history + events, Mutated(v.tasks, mutations))
  }

  lemma {:induction false} CommitKeepsView(env: Env, ld: Loaded, v: View, w: Work, run: RunRecord)
    requires ViewOk(ld.def, v) && ld.run == v.run && ld.events == v.history && ld.tasks == v.tasks
    requires Replay(ld.def, v.run, v.history) == Ok(ld.state) && env.runId == v.run.id
    requires Final(BaseOf(ld), env, w)
    requires SummaryMatches(run, w.state.run) && run.version == |v.history| + |w.events|
    ensures ViewOk(ld.def, Committing(v, run, w.events, w.mutations))
  {
    var v' := Committing(v, run, w.events, w.mutations);
    var h := v.history + w.events;
    var f := Fold(ld.state, w.events).value;
    CommitReplays(env, ld, v, w) by { hide Inv, Committed, RowsAgree; }
    ReplayFromOtherSummary(ld.def, v.run, v'.run, h) by { hide ViewOk, Final, Replay; }
    CommitHistory(env, ld, v, w) by { hide Inv, Committed, RowsAgree, Replay; }
    assert SummaryMatches(v'.run, Replay(ld.def, v'.run, h).value.run) by { hide ViewOk, Final, Replay; }
    hide Inv, Committed, LegalFrom, Replay, RowsAgree, Fold, FieldsFollow;
  }

  lemma CommitReplays(env: Env, ld: Loaded, v: View, w: Work)
    requires ViewOk(ld.def, v) && Replay(ld.def, v.run, v.history) == Ok(ld.state)
    requires Final(BaseOf(ld), env, w)
    ensures Replay(ld.def, v.run, v.history + w.events).Ok?
    ensures var s := Replay(ld.def, v.run, v.history + w.events).value;
            s.core == w.state.core && SummaryMatches(w.state.run, s.run)
  {
    hide Inv, Committed, RowsAgree, LegalFrom, Fold;
    FoldConcat(Initial(ld.def, v.run), v.history, w.events);
  }

  lemma CommitHistory(env: Env, ld: Loaded, v: View, w: Work)
    requires ViewOk(ld.def, v) && Replay(ld.def, v.run, v.history) == Ok(ld.state) && ld.run == v.run
             && env.runId == v.run.id
    requires Final(BaseOf(ld), env, w)
    ensures LegalFrom(InitialCore(ld.def), v.history + w.events)
    ensures Numbered(v.history + w.events) && OfRun(v.history + w.events, v.run.id)
    ensures (v.history + w.events)[0] == v.history[0]
  {
    hide Inv, Committed, RowsAgree, LegalFrom, Fold;
    FoldIsCoreFold(Initial(ld.def, v.run), v.history);
    LegalFromConcat(InitialCore(ld.def), v.history, w.events);
  }

  // ------------------------------------------------------------------ leases and heartbeats

  /** One event appended by the store, with its row. */
  lemma StoreEventKeepsView(def: Definition, v: View, run: RunRecord, e: Event, tasks: map<TaskId, TaskRecord>,
                            s': Core)
    requires ViewOk(def, v)
    requires var s := Replay(def, v.run, v.history).value.core;
             && Legal(s, e) && ApplyCore(s, e) == Ok(s') && Committed(v.run.status, s')
    requires RowsAgree(s'.tasks, tasks, v.run.id)
    requires e.sequence == |v.history| + 1 && e.runId == v.run.id
    requires e.payload.TaskLeased? || e.payload.TaskHeartbeat?
    requires run == v.run.(version := |v.history| + 1, updatedAt := run.updatedAt)
    ensures ViewOk(def, View(run, v.history + [e], tasks))
  {
    var s := Replay(def, v.run, v.history).value;
    var h := v.history + [e];
    StoreEventReplays(def, v, e) by { hide Inv, Committed, RowsAgree, Legal; }
    ReplayFromOtherSummary(def, v.run, run, h) by { hide ViewOk, Replay; }
    StoreEventHistory(def, v, e) by { hide Inv, Committed, RowsAgree, Legal, ApplyCore; }
    LegalKeepsInv(def, s.core, e) by { hide Committed, RowsAgree, Legal, ApplyCore, Inv; }
    StoreEventSummary(s.run, s.core.cancelRequested, e);
    hide Inv, Committed, LegalFrom, Replay, RowsAgree, Fold, Legal, ApplyCore, ApplyRun;
  }

  lemma StoreEventSummary(r: RunRecord, cancelRequested: bool, e: Event)
    requires e.payload.TaskLeased? || e.payload.TaskHeartbeat?
    ensures SummaryMatches(r, ApplyRun(r, cancelRequested, e))
  {
  }

  lemma StoreEventReplays(def: Definition, v: View, e: Event)
    requires ViewOk(def, v)
    requires ApplyCore(Replay(def, v.run, v.history).value.core, e).Ok?
    ensures Replay(def, v.run, v.history + [e]) == Apply(Replay(def, v.run, v.history).value, e)
  {
    hide Inv, Committed, RowsAgree, LegalFrom, Apply;
    FoldSnoc(Initial(def, v.run), v.history, e);
  }

  lemma StoreEventHistory(def: Definition, v: View, e: Event)
    requires ViewOk(def, v) && Legal(Replay(def, v.run, v.history).value.core, e)
    requires e.sequence == |v.history| + 1 && e.runId == v.run.id
    ensures LegalFrom(InitialCore(def), v.history + [e])
    ensures Numbered(v.history + [e]) && OfRun(v.history + [e], v.run.id)
    ensures (v.history + [e])[0] == v.history[0]
  {
    hide Inv, Committed, RowsAgree, LegalFrom, Fold, Legal;
    FoldIsCoreFold(Initial(def, v.run), v.history);
    LegalFromSnoc(InitialCore(def), v.history, e);
  }

  function LeaseEvent(v: View, id: TaskId, worker: string, ttl: int, now: Time): Event
    requires id in v.tasks
  {
    var row := v.tasks[id];
    Event(v.run.id, |v.history| + 1, row.stepId, Some(id), TaskLeased(id, row.stepId, worker, row.attempt, now + ttl),
          now)
  }

  lemma ViewFacts(def: Definition, v: View)
    requires ViewOk(def, v)
    ensures Replay(def, v.run, v.history).Ok? && |v.history| >= 1
    ensures var s := Replay(def, v.run, v.history).value.core;
            Inv(def, s) && Committed(v.run.status, s) && RowsAgree(s.tasks, v.tasks, v.run.id)
  {
    hide Inv, Committed, RowsAgree, LegalFrom, Replay;
  }

  lemma RowFacts(tasks: map<TaskId, TaskState>, rows: map<TaskId, TaskRecord>, runId: RunId, id: TaskId)
    requires RowsAgree(tasks, rows, runId) && id in rows
    ensures id in tasks && RowAgrees(tasks[id], rows[id]) && rows[id].runId == runId && rows[id].id == id
  {
    assert RowAt(tasks, rows, runId, id);
  }

  lemma LeaseKeepsView(def: Definition, v: View, run: RunRecord, id: TaskId, worker: string, ttl: int, now: Time)
    requires ViewOk(def, v) && id in v.tasks
    requires v.tasks[id].status.Available? && v.tasks[id].kind.Activity? && v.tasks[id].availableAt < now + SECOND
    requires run == v.run.(version := |v.history| + 1, updatedAt := now)
    ensures ViewOk(def, View(run, v.history + [LeaseEvent(v, id, worker, ttl, now)],
                             v.tasks[id := LeasedRow(v.tasks[id], worker, now + ttl, now)]))
  {
    hide ViewOk, Inv, Committed, RowsAgree, Replay, Legal, ApplyCore, Moves, Open, StillWanted;
    ViewFacts(def, v);
    var s := Replay(def, v.run, v.history).value.core;
    var e, row := LeaseEvent(v, id, worker, ttl, now), LeasedRow(v.tasks[id], worker, now + ttl, now);
    RowFacts(s.tasks, v.tasks, v.run.id, id);
    TaskIsOpen(s, id);
    OpenIsWanted(v.run.status, s, id);
    LeaseMoves(def, s, e, worker, ttl, now);
    var s' := ApplyCore(s, e).value;
    OpenMoveKeepsCommitted(def, v.run.status, s, s', id);
    MovedTasks(s, s', id);
    OneRowChanges(s.tasks, v.tasks, v.run.id, id, s'.tasks[id], row);
    StoreEventKeepsView(def, v, run, e, v.tasks[id := row], s');
  }

  lemma TaskIsOpen(s: Core, id: TaskId)
    requires id in s.tasks && (s.tasks[id].status.Available? || s.tasks[id].status.Leased?)
    ensures Open(s, id)
  {
  }

  lemma MovedTasks(s: Core, s': Core, id: TaskId)
    requires Moves(s, s', id)
    ensures id in s'.tasks && s'.tasks == s.tasks[id := s'.tasks[id]]
  {
  }

  lemma LeaseMoves(def: Definition, s: Core, e: Event, worker: string, ttl: int, now: Time)
    requires Inv(def, s) && e.payload.TaskLeased? && e.payload.taskId in s.tasks && e.sequence > 1
    requires var t := s.tasks[e.payload.taskId];
             && e.payload == TaskLeased(t.id, t.stepId, worker, t.attempt, now + ttl) && e.createdAt == now
             && t.status.Available? && t.kind.Activity? && t.availableAt < now + SECOND && t.id == e.payload.taskId
             && StillWanted(s, t.id)
    ensures Legal(s, e) && ApplyCore(s, e).Ok?
    ensures var s', id := ApplyCore(s, e).value, e.payload.taskId;
            && Moves(s, s', id) && Open(s, id) && Open(s', id)
            && s'.tasks[id] == s.tasks[id].(status := Leased, leaseOwner := worker, leaseExpiresAt := Some(now + ttl))
  {
    hide Inv, NextCompensation;
    TaskEventMoves(def, s, e) by { hide Moves, ApplyCore; }
    hide Moves;
  }

  function HeartbeatEvent(v: View, id: TaskId, worker: string, extendBy: int, now: Time): Event
    requires id in v.tasks
  {
    Event(v.run.id, |v.history| + 1, v.tasks[id].stepId, Some(id), TaskHeartbeat(id, worker, now + extendBy), now)
  }

  function RenewedRow(row: TaskRecord, extendBy: int, now: Time): TaskRecord {
    row.(heartbeatAt := Some(now), leaseExpiresAt := Some(now + extendBy), updatedAt := now)
  }

  lemma HeartbeatKeepsView(def: Definition, v: View, run: RunRecord, id: TaskId, worker: string, extendBy: int,
                           now: Time)
    requires ViewOk(def, v) && id in v.tasks
    requires v.tasks[id].status.Leased? && v.tasks[id].leaseOwner == worker
    requires run == v.run.(version := |v.history| + 1, updatedAt := now)
    ensures ViewOk(def, View(run, v.history + [HeartbeatEvent(v, id, worker, extendBy, now)],
                             v.tasks[id := RenewedRow(v.tasks[id], extendBy, now)]))
  {
    hide ViewOk, Inv, Committed, RowsAgree, Replay, Legal, ApplyCore, Moves, Open, StillWanted;
    ViewFacts(def, v);
    var s := Replay(def, v.run, v.history).value.core;
    var e, row := HeartbeatEvent(v, id, worker, extendBy, now), RenewedRow(v.tasks[id], extendBy, now);
    RowFacts(s.tasks, v.tasks, v.run.id, id);
    TaskIsOpen(s, id);
    OpenIsWanted(v.run.status, s, id);
    HeartbeatMoves(def, s, e, id, worker, now + extendBy);
    var s' := ApplyCore(s, e).value;
    OpenMoveKeepsCommitted(def, v.run.status, s, s', id);
    MovedTasks(s, s', id);
    OneRowChanges(s.tasks, v.tasks, v.run.id, id, s'.tasks[id], row);
    StoreEventKeepsView(def, v, run, e, v.tasks[id := row], s');
  }

  lemma HeartbeatMoves(def: Definition, s: Core, e: Event, id: TaskId, worker: string, expiresAt: Time)
    requires Inv(def, s) && id in s.tasks && e.sequence > 1 && e.taskId == Some(id) && StillWanted(s, id)
    requires s.tasks[id].status.Leased? && s.tasks[id].leaseOwner == worker
             && e.payload == TaskHeartbeat(id, worker, expiresAt)
    ensures Legal(s, e) && ApplyCore(s, e).Ok?
    ensures var s' := ApplyCore(s, e).value;
            && Moves(s, s', id) && Open(s, id) && Open(s', id)
            && s'.tasks[id] == s.tasks[id].(leaseOwner := worker, leaseExpiresAt := Some(expiresAt),
                                            heartbeatAt := Some(e.createdAt))
  {
    hide OrderOk;
    assert TaskOk(s, id);
    assert s.steps[s.tasks[id].stepId := s.steps[s.tasks[id].stepId]] == s.steps;
    hide Inv;
  }
}
