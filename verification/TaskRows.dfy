/** What a task row keeps of the event that scheduled its task: what is to be done, where, how often, and with what
    input. */
module TaskRows {
  import opened Prelude
  import opened Workflow
  import opened History
  import opened Engine
  import opened Reducer
  import opened Invariant
  import opened Chronicle
  import opened Commands
  import opened Tracking
  import opened Settled
  import opened CommandProofs
  import opened CancelProofs
  import opened Tables
  import opened Runs
  import opened System
  import opened Operations
  import opened Histories
  import opened Guarantees
  import opened Footprint
  import opened Steps

  /** The row says what the scheduling event `e` says. */
  predicate Holds(row: TaskRecord, e: Event) {
    && e.payload.TaskScheduled?
    && var p := e.payload;
    && row.id == p.taskId && row.stepId == p.stepId && row.kind == p.kind
    && row.queue == p.queue && row.activity == p.activity
    && row.maxAttempts == p.maxAttempts && row.dependencies == p.dependencies
    && row.phase == (if p.compensation then Compensation else Forward)
    && row.createdAt == e.createdAt
  }

  /** The columns that never change. */
  predicate SameOrder(row: TaskRecord, row': TaskRecord) {
    && row'.id == row.id && row'.stepId == row.stepId && row'.kind == row.kind && row'.phase == row.phase
    && row'.queue == row.queue && row'.activity == row.activity
    && row'.maxAttempts == row.maxAttempts && row'.dependencies == row.dependencies
    && row'.createdAt == row.createdAt
  }

  predicate HeldIn(events: seq<Event>, row: TaskRecord) {
    exists i :: 0 <= i < |events| && Holds(row, events[i])
  }

  lemma HeldLater(events: seq<Event>, more: seq<Event>, row: TaskRecord)
    requires HeldIn(events, row) && events <= more
    ensures HeldIn(more, row)
  {
    var i :| 0 <= i < |events| && Holds(row, events[i]);
    assert Holds(row, more[i]);
  }

  lemma HeldAfter(events: seq<Event>, more: seq<Event>, row: TaskRecord)
    requires HeldIn(more, row)
    ensures HeldIn(events + more, row)
  {
    var i :| 0 <= i < |more| && Holds(row, more[i]);
    assert Holds(row, (events + more)[|events| + i]);
  }

  lemma HeldAlike(events: seq<Event>, row: TaskRecord, row': TaskRecord)
    requires HeldIn(events, row) && SameOrder(row, row')
    ensures HeldIn(events, row')
  {
    var i :| 0 <= i < |events| && Holds(row, events[i]);
    assert Holds(row', events[i]);
  }

  // ------------------------------------------------------------------ what a command writes

  /** A row is inserted as it was scheduled, or updated in other columns. */
  predicate Booked(tasks: map<TaskId, TaskRecord>, events: seq<Event>, m: Mutation) {
    match m
    case Insert(task) => HeldIn(events, task)
    case Update(task) => task.id in tasks && SameOrder(tasks[task.id], task)
  }

  ghost predicate Books(tasks: map<TaskId, TaskRecord>, w: Work) {
    forall i :: 0 <= i < |w.mutations| ==> Booked(tasks, w.events, w.mutations[i])
  }

  lemma BooksLater(tasks: map<TaskId, TaskRecord>, w: Work, w': Work)
    requires Books(tasks, w) && w.events <= w'.events && w'.mutations == w.mutations
    ensures Books(tasks, w')
  {
    hide HeldIn, SameOrder;
    forall i | 0 <= i < |w'.mutations| ensures Booked(tasks, w'.events, w'.mutations[i]) {
      assert Booked(tasks, w.events, w.mutations[i]);
      if w.mutations[i].Insert? { HeldLater(w.events, w'.events, w.mutations[i].task); }
    }
  }

  lemma BooksOneMore(tasks: map<TaskId, TaskRecord>, w: Work, w': Work, m: Mutation)
    requires Books(tasks, w) && w.events <= w'.events && w'.mutations == w.mutations + [m]
    requires Booked(tasks, w'.events, m)
    ensures Books(tasks, w')
  {
    hide Booked;
    var w1 := w.(events := w'.events);
    BooksLater(tasks, w, w1);
    forall i | 0 <= i < |w'.mutations| ensures Booked(tasks, w'.events, w'.mutations[i]) {
      if i < |w.mutations| { assert Booked(tasks, w1.events, w1.mutations[i]); }
    }
  }

  lemma EmitBooks(tasks: map<TaskId, TaskRecord>, env: Env, w: Work, stepId: StepId, taskId: Option<TaskId>,
                  payload: Payload)
    requires Books(tasks, w) && Emit(env, w, stepId, taskId, payload).Ok?
    ensures Books(tasks, Emit(env, w, stepId, taskId, payload).value)
  {
    hide Books, Apply;
    BooksLater(tasks, w, Emit(env, w, stepId, taskId, payload).value);
  }

  lemma ScheduleBooks(tasks: map<TaskId, TaskRecord>, env: Env, w: Work, step: Step, phase: TaskPhase)
    requires Books(tasks, w) && Schedule(env, w, step, phase).Ok?
    ensures Books(tasks, Schedule(env, w, step, phase).value)
  {
    hide Books, Apply;
    var w' := Schedule(env, w, step, phase).value;
    var task := NewTask(env, w.state.core.outputs, step, phase, env.Id(w.next));
    assert Holds(task, w'.events[|w.events|]);
    assert HeldIn(w'.events, task);
    hide NewTask, Holds, HeldIn;
    BooksOneMore(tasks, w, w', Insert(task));
  }

  lemma {:induction false} ReadyBooks(tasks: map<TaskId, TaskRecord>, env: Env, w: Work, list: seq<StepId>)
    requires Books(tasks, w) && ScheduleForwardReady(env, w, list).Ok?
    ensures Books(tasks, ScheduleForwardReady(env, w, list).value)
  {
    hide Books, Schedule, Ready;
    if list != [] {
      var init, x := list[..|list| - 1], list[|list| - 1];
      ReadyBooks(tasks, env, w, init);
      var w1 := ScheduleForwardReady(env, w, init).value;
      if Ready(w1.state.core, x) { ScheduleBooks(tasks, env, w1, w1.state.core.steps[x].definition, Forward); }
    }
  }

  lemma FinishBooks(tasks: map<TaskId, TaskRecord>, env: Env, w: Work)
    requires Books(tasks, w) && FinishWithoutCompensation(env, w).Ok?
    ensures Books(tasks, FinishWithoutCompensation(env, w).value)
  {
    hide Books, Apply;
    BooksLater(tasks, w, FinishWithoutCompensation(env, w).value);
  }

  lemma AdvanceBooks(tasks: map<TaskId, TaskRecord>, env: Env, w: Work)
    requires Books(tasks, w) && AdvanceCompensation(env, w).Ok?
    ensures Books(tasks, AdvanceCompensation(env, w).value)
  {
    hide Books, Schedule, FinishWithoutCompensation, NextCompensation, HasOpen;
    if !HasOpen(w.state.core, Compensation) {
      match NextCompensation(w.state.core)
      case Some(x) => ScheduleBooks(tasks, env, w, CompensationStep(w.state.core.steps[x].definition), Compensation);
      case None => FinishBooks(tasks, env, w);
    }
  }

  lemma BeginBooks(tasks: map<TaskId, TaskRecord>, env: Env, w: Work)
    requires Books(tasks, w) && BeginCompensationOrFinish(env, w).Ok?
    ensures Books(tasks, BeginCompensationOrFinish(env, w).value)
  {
    hide Books, Emit, Schedule, FinishWithoutCompensation, NextCompensation;
    match NextCompensation(w.state.core)
    case Some(x) =>
      var reason := if w.state.core.cancelRequested then w.state.run.cancelReason else w.state.run.failure;
      EmitBooks(tasks, env, w, "", None, RunCompensating(reason));
      var w1 := Emit(env, w, "", None, RunCompensating(reason)).value;
      ScheduleBooks(tasks, env, w1, CompensationStep(w1.state.core.steps[x].definition), Compensation);
    case None => FinishBooks(tasks, env, w);
  }

  lemma PostProcessBooks(tasks: map<TaskId, TaskRecord>, env: Env, order: seq<StepId>, w: Work)
    requires Books(tasks, w) && PostProcess(env, order, w).Ok?
    ensures Books(tasks, PostProcess(env, order, w).value)
  {
    hide Books, Emit, AdvanceCompensation, ScheduleForwardReady, HasOpen, AllForwardCompleted, RunOutput;
    if w.state.core.compensating {
      AdvanceBooks(tasks, env, w);
    } else {
      ReadyBooks(tasks, env, w, order);
      var w1 := ScheduleForwardReady(env, w, order).value;
      if AllForwardCompleted(order, w1.state.core) && !HasOpen(w1.state.core, Forward) {
        EmitBooks(tasks, env, w1, "", None, RunCompleted(RunOutput(w1.state.core)));
      }
    }
  }

  lemma UpdateBooked(ld: Loaded, events: seq<Event>, id: TaskId, t: TaskState, now: Time)
    requires id in ld.tasks && ld.tasks[id].id == id
    ensures Booked(ld.tasks, events, Update(UpdateRow(Row(ld, id), t, now)))
  {
  }

  lemma UpdateBooks(env: Env, ld: Loaded, w: Work, stepId: StepId, id: TaskId, payload: Payload)
    requires Books(ld.tasks, w) && id in ld.tasks && ld.tasks[id].id == id
             && EmitAndUpdate(env, ld, w, stepId, id, payload).Ok?
    ensures Books(ld.tasks, EmitAndUpdate(env, ld, w, stepId, id, payload).value)
  {
    hide Books, Apply, UpdateRow, Booked;
    var w' := EmitAndUpdate(env, ld, w, stepId, id, payload).value;
    UpdateBooked(ld, w'.events, id, w'.state.core.tasks[id], env.now);
    BooksOneMore(ld.tasks, w, w', w'.mutations[|w.mutations|]);
  }

  lemma {:induction false} CancelTasksBook(env: Env, ld: Loaded, w: Work, list: seq<TaskId>, reason: string)
    requires Books(ld.tasks, w) && CancelTasks(env, ld, w, list, reason).Ok?
    requires forall i :: 0 <= i < |list| ==> list[i] in ld.tasks && ld.tasks[list[i]].id == list[i]
    ensures Books(ld.tasks, CancelTasks(env, ld, w, list, reason).value)
  {
    hide Books, EmitAndUpdate, Row;
    if list != [] {
      var init, id := list[..|list| - 1], list[|list| - 1];
      CancelTasksBook(env, ld, w, init, reason);
      var w1 := CancelTasks(env, ld, w, init, reason).value;
      if id in w1.state.core.tasks && w1.state.core.tasks[id].status.Open() {
        UpdateBooks(env, ld, w1, Row(ld, id).stepId, id,
                    TaskCancelled(id, Row(ld, id).stepId, reason, w1.state.core.tasks[id].phase.Compensation?));
      }
    }
  }

  lemma CompleteBooks(env: Env, ld: Loaded, worker: string, id: TaskId, output: Json)
    requires RowFiled(ld, id) && CompleteWork(env, ld, worker, id, output).Ok?
    ensures Books(ld.tasks, CompleteWork(env, ld, worker, id, output).value)
  {
    hide PostProcess, EmitAndUpdate, Booked;
    var t := ld.state.core.tasks[id];
    var payload := TaskCompleted(id, t.stepId, worker, NormalizeJson(output), t.phase.Compensation?);
    UpdateBooks(env, ld, Begin(ld), t.stepId, id, payload);
    PostProcessBooks(ld.tasks, env, ld.def.order, EmitAndUpdate(env, ld, Begin(ld), t.stepId, id, payload).value);
  }

  lemma FireBooks(env: Env, ld: Loaded, id: TaskId)
    requires RowFiled(ld, id) && FireWork(env, ld, id).Ok?
    ensures Books(ld.tasks, FireWork(env, ld, id).value)
  {
    hide PostProcess, EmitAndUpdate, Booked;
    var stepId := ld.state.core.tasks[id].stepId;
    UpdateBooks(env, ld, Begin(ld), stepId, id, TimerFired(id, stepId));
    PostProcessBooks(ld.tasks, env, ld.def.order,
                     EmitAndUpdate(env, ld, Begin(ld), stepId, id, TimerFired(id, stepId)).value);
  }

  lemma CancelBooks(env: Env, ld: Loaded, reason: string)
    requires CancelWork(env, ld, reason).Ok?
    requires forall i :: 0 <= i < |ld.listing| ==>
               ld.listing[i] in ld.tasks && ld.tasks[ld.listing[i]].id == ld.listing[i]
    ensures Books(ld.tasks, CancelWork(env, ld, reason).value)
  {
    hide Emit, CancelTasks, BeginCompensationOrFinish, Booked;
    EmitBooks(ld.tasks, env, Begin(ld), "", None, RunCancelRequested(reason));
    var w := Emit(env, Begin(ld), "", None, RunCancelRequested(reason)).value;
    CancelTasksBook(env, ld, w, ld.listing, reason);
    BeginBooks(ld.tasks, env, CancelTasks(env, ld, w, ld.listing, reason).value);
  }

  lemma RetryBooks(env: Env, ld: Loaded, w: Work, id: TaskId, error: string)
    requires RowFiled(ld, id) && ld.state.core.tasks[id].stepId in ld.def.steps && RetryWork(env, ld, w, id, error).Ok?
    requires Books(ld.tasks, w)
    ensures Books(ld.tasks, RetryWork(env, ld, w, id, error).value)
  {
    hide Books, Apply, BackoffForAttempt;
    var w' := RetryWork(env, ld, w, id, error).value;
    var m := w'.mutations[|w.mutations|];
    assert Booked(ld.tasks, w'.events, m);
    hide Booked;
    BooksOneMore(ld.tasks, w, w', m);
  }

  lemma FinalFailureBooks(env: Env, ld: Loaded, w: Work, id: TaskId, error: string)
    requires RowFiled(ld, id) && FinalFailureWork(env, ld, w, id, error).Ok? && Books(ld.tasks, w)
    ensures Books(ld.tasks, FinalFailureWork(env, ld, w, id, error).value)
  {
    hide BeginCompensationOrFinish, CompensationFailure, Books, Booked, UpdateRow;
    var t, m := ld.state.core.tasks[id], UpdateOf(env, ld, w, id).value;
    var failure := if t.phase.Compensation? then CompensationFailure(t.stepId, error) else error;
    var w1 := Mutate(w, m).(state := w.state.(run := w.state.run.(failure := failure)));
    UpdateBooked(ld, w.events, id, w.state.core.tasks[id], env.now);
    BooksOneMore(ld.tasks, w, w1, m);
    BeginBooks(ld.tasks, env, w1);
  }

  lemma FailBooks(env: Env, ld: Loaded, worker: string, id: TaskId, error: string, retryable: bool) returns (w: Work)
    requires RowFiled(ld, id) && FailTask(env, ld, worker, id, error, retryable).Append?
    ensures var o := FailTask(env, ld, worker, id, error, retryable);
            w.events == o.events && w.mutations == o.mutations && Books(ld.tasks, w)
  {
    hide RetryWork, FinalFailureWork, Booked, LeaseCheck, Apply;
    FailEventWrites(env, ld, worker, id, error, retryable) by { hide FailEvent, WritesOnly; }
    w := FailEvent(env, ld, worker, id, error).value;
    assert Books(ld.tasks, w);
    hide FailEvent, Books;
    if Retries(ld, id, ld.state.core.cancelRequested, retryable) {
      RetryBooks(env, ld, w, id, error);
      w := RetryWork(env, ld, w, id, error).value;
    } else {
      hide Retries;
      FinalFailureBooks(env, ld, w, id, error);
      w := FinalFailureWork(env, ld, w, id, error).value;
    }
  }

  predicate BooksOf(tasks: map<TaskId, TaskRecord>, events: seq<Event>, mutations: seq<Mutation>) {
    forall i :: 0 <= i < |mutations| ==> Booked(tasks, events, mutations[i])
  }

  lemma ExecuteBooks(env: Env, ld: Loaded, req: Request)
    requires LoadedOk(env, ld) && Execute(env, ld, req).Append?
    ensures var o := Execute(env, ld, req); BooksOf(ld.tasks, o.events, o.mutations)
  {
    ListedRows(env, ld);
    if !req.CancelRequest? && req.task in ld.state.core.tasks { LoadedRowFiled(env, ld, req.task); }
    hide LoadedOk, CompleteWork, FailTask, CancelWork, FireWork, Booked;
    match req
    case CompleteRequest(worker, id, output) => CompleteBooks(env, ld, worker, id, output);
    case FailRequest(worker, id, error, retryable) =>
      FailedIsKnown(env, ld, worker, id, error, retryable);
      var w := FailBooks(env, ld, worker, id, error, retryable);
    case FireRequest(id) => FireBooks(env, ld, id);
    case CancelRequest(_, reason) => CancelBooks(env, ld, reason);
  }

  lemma ListedRows(env: Env, ld: Loaded)
    requires LoadedOk(env, ld)
    ensures forall i :: 0 <= i < |ld.listing| ==>
              ld.listing[i] in ld.tasks && ld.tasks[ld.listing[i]].id == ld.listing[i]
  {
    hide Inv, Committed, Fresh, ValidDefinition;
    forall i | 0 <= i < |ld.listing| ensures ld.listing[i] in ld.tasks && ld.tasks[ld.listing[i]].id == ld.listing[i] {
      assert ld.listing[i] in ld.tasks;
      assert RowAt(ld.state.core.tasks, ld.tasks, env.runId, ld.listing[i]);
    }
  }

  // ------------------------------------------------------------------ what becomes of the rows

  lemma {:induction false} MutatedHolds(rows: map<TaskId, TaskRecord>, env: Env, events: seq<Event>,
                                        mutations: seq<Mutation>, k: TaskId)
    requires AllProper(rows, env, mutations) && BooksOf(rows, events, mutations) && k in Mutated(rows, mutations)
    ensures k in rows ==> SameOrder(rows[k], Mutated(rows, mutations)[k])
    ensures k !in rows ==> HeldIn(events, Mutated(rows, mutations)[k])
  {
    hide HeldIn;
    if mutations != [] {
      var init, m := mutations[..|mutations| - 1], mutations[|mutations| - 1];
      assert Booked(rows, events, m);
      assert forall i :: 0 <= i < |init| ==> Booked(rows, events, init[i]) by {
        forall i | 0 <= i < |init| ensures Booked(rows, events, init[i]) { assert mutations[i] == init[i]; }
      }
      hide Booked;
      if k in Mutated(rows, init) { MutatedHolds(rows, env, events, init, k); }
      MutatedKeepsRows(rows, init);
      MutatedRow(rows, Mutated(rows, init), env, events, m, k);
    }
  }

  lemma MutatedRow(rows: map<TaskId, TaskRecord>, table: map<TaskId, TaskRecord>, env: Env, events: seq<Event>,
                   m: Mutation, k: TaskId)
    requires Proper(table, env, m) && Booked(rows, events, m) && k in MutateRows(table, m)
    requires rows.Keys <= table.Keys
    requires k in table && k in rows ==> SameOrder(rows[k], table[k])
    requires k in table && k !in rows ==> HeldIn(events, table[k])
    ensures k in rows ==> SameOrder(rows[k], MutateRows(table, m)[k])
    ensures k !in rows ==> HeldIn(events, MutateRows(table, m)[k])
  {
    hide HeldIn;
  }

  /** Every row of the run is held by an event in its history. */
  predicate Held(v: View, id: TaskId) {
    id in v.tasks ==> v.tasks[id].id == id && HeldIn(v.history, v.tasks[id])
  }

  ghost predicate AllHeld(v: View) {
    forall id :: Held(v, id)
  }

  lemma HeldKeptByStore()
    ensures KeptByStore(v => AllHeld(v))
  {
    hide HeldIn;
    forall v, v', id, e {:trigger StoreStep(v, v', id, e)} | AllHeld(v) && StoreStep(v, v', id, e) ensures AllHeld(v') {
      forall k ensures Held(v', k) {
        assert Held(v, k);
        if k in v.tasks {
          HeldLater(v.history, v'.history, v.tasks[k]);
          StepKeepsOrder(v.tasks[id], v'.tasks[id], id, e);
          HeldAlike(v'.history, v.tasks[k], v'.tasks[k]) by { hide RowStep; }
        }
      }
    }
  }

  lemma StepKeepsOrder(row: TaskRecord, row': TaskRecord, id: TaskId, e: Event)
    requires RowStep(row, row', id, e)
    ensures SameOrder(row, row')
  {
  }

  lemma CommandHolds(v: View, v': View, env: Env, ld: Loaded, req: Request, w: Work)
    requires CommandStep(v, v', env, ld, req, w) && AllHeld(v)
    ensures AllHeld(v')
  {
    CommandBooks(v, v', env, ld, req, w);
    hide CommandStep, HeldIn, Mutated, AllProper, BooksOf;
    forall k ensures Held(v', k) {
      assert Held(v, k);
      if k in v'.tasks {
        MutatedHolds(v.tasks, env, w.events, w.mutations, k);
        if k in v.tasks {
          HeldLater(v.history, v'.history, v.tasks[k]);
          HeldAlike(v'.history, v.tasks[k], v'.tasks[k]);
        } else {
          HeldAfter(v.history, w.events, v'.tasks[k]);
        }
      }
    }
  }

  lemma CommandBooks(v: View, v': View, env: Env, ld: Loaded, req: Request, w: Work)
    requires CommandStep(v, v', env, ld, req, w)
    ensures AllProper(v.tasks, env, w.mutations) && BooksOf(v.tasks, w.events, w.mutations)
    ensures v'.history == v.history + w.events && v'.tasks == Mutated(v.tasks, w.mutations)
    ensures forall k :: k in v'.tasks ==> v'.tasks[k].id == k
  {
    ExecuteBooks(env, ld, req) by { hide Final, Replay, LoadedOk, Execute, BooksOf; }
    hide LoadedOk, Execute, Chained, Committed, AllProper, Mutated, Fresh, Replay, BooksOf;
    forall k | k in v'.tasks ensures v'.tasks[k].id == k {
      RowFacts(w.state.core.tasks, v'.tasks, env.runId, k);
    }
  }

  lemma HeldKeptByCommands()
    ensures KeptByCommands(v => AllHeld(v))
  {
    hide CommandStep, AllHeld;
    forall v, v', env, ld, req, w {:trigger CommandStep(v, v', env, ld, req, w)}
      | AllHeld(v) && CommandStep(v, v', env, ld, req, w) ensures AllHeld(v')
    {
      CommandHolds(v, v', env, ld, req, w);
    }
  }

  lemma StartBooks(env: Env, def: Definition, input: Json, w: Work)
    requires StartWork(env, def, input) == Ok(w)
    ensures BooksOf(map[], w.events, w.mutations)
  {
    hide ScheduleForwardReady, Fold, Booked;
    var started, run := StartedEvent(env, def.name, NormalizeJson(input)), NewRun(env, def.name, NormalizeJson(input));
    ReadyBooks(map[], env, Work(Replay(def, run, [started]).value, 2, [started], []), def.order);
  }

  lemma StartHolds(env: Env, def: Definition, input: Json, w: Work)
    requires StartStep(env, def, input, w)
    ensures AllHeld(StartView(env, def, input, w))
  {
    StartBooks(env, def, input, w) by { hide StartStep, BooksOf; }
    StartWorkFinal(env, def, input) by { hide ValidDefinition, Fresh, StartWork, Final; }
    var b := Base(def, Initial(def, NewRun(env, def.name, NormalizeJson(input))), 0, map[]);
    StartedIds(b, env, w) by { hide StartWork; }
    hide StartStep, HeldIn, Mutated, AllProper, BooksOf, Final;
    var v := StartView(env, def, input, w);
    forall k ensures Held(v, k) {
      if k in v.tasks { MutatedHolds(map[], env, w.events, w.mutations, k); }
    }
  }

  lemma StartedIds(b: Base, env: Env, w: Work)
    requires Final(b, env, w)
    ensures AllProper(b.rows, env, w.mutations)
    ensures forall k :: k in Mutated(b.rows, w.mutations) ==> Mutated(b.rows, w.mutations)[k].id == k
  {
    hide Chained, Committed, AllProper, Mutated, Fresh;
    forall k | k in Mutated(b.rows, w.mutations) ensures Mutated(b.rows, w.mutations)[k].id == k {
      RowFacts(w.state.core.tasks, Mutated(b.rows, w.mutations), env.runId, k);
    }
  }

  lemma HeldAtStart()
    ensures HoldsAtStart(v => AllHeld(v))
  {
    hide StartStep, AllHeld;
    forall env, def, input, w {:trigger StartStep(env, def, input, w)} | StartStep(env, def, input, w)
      ensures AllHeld(StartView(env, def, input, w))
    {
      StartHolds(env, def, input, w);
    }
  }

  // ------------------------------------------------------------------ every reachable store

  predicate SchedulesId(e: Event, id: TaskId) {
    e.payload.TaskScheduled? && e.payload.taskId == id
  }

  /** No identifier is used for two tasks. */
  lemma {:induction false} ScheduledTaskStays(def: Definition, events: seq<Event>, i: nat)
    requires LegalFrom(InitialCore(def), events) && i < |events| && events[i].payload.TaskScheduled?
    ensures events[i].payload.taskId in StateOf(def, events).tasks
  {
    hide Inv, Legal, StateOf, LegalFrom, InitialCore, ApplyCore;
    var init, e := events[..|events| - 1], events[|events| - 1];
    StateStep(def, events);
    if i < |init| { ScheduledTaskStays(def, init, i); }
    EventKeepsTasks(StateOf(def, init), e);
  }

  predicate KeepsKeys(s: Core, s': Core) {
    s.tasks.Keys <= s'.tasks.Keys
  }

  lemma MoveKeepsKeys(s: Core, e: Event)
    requires e.payload.TaskLeased? || e.payload.TaskFailed? || e.payload.TaskRetryScheduled? || e.payload.TaskCancelled?
    requires ApplyCore(s, e).Ok?
    ensures KeepsKeys(s, ApplyCore(s, e).value)
  {
  }

  lemma EndKeepsKeys(s: Core, e: Event)
    requires e.payload.TaskCompleted? || e.payload.TimerFired? || e.payload.TaskLeaseExpired?
             || e.payload.TaskHeartbeat?
    requires ApplyCore(s, e).Ok?
    ensures KeepsKeys(s, ApplyCore(s, e).value)
  {
  }

  lemma EventKeepsTasks(s: Core, e: Event)
    requires ApplyCore(s, e).Ok?
    ensures KeepsKeys(s, ApplyCore(s, e).value)
    ensures e.payload.TaskScheduled? ==> e.payload.taskId in ApplyCore(s, e).value.tasks
  {
    var p := e.payload;
    if p.TaskLeased? || p.TaskFailed? || p.TaskRetryScheduled? || p.TaskCancelled? {
      hide ApplyCore;
      MoveKeepsKeys(s, e);
    } else if p.TaskCompleted? || p.TimerFired? || p.TaskLeaseExpired? || p.TaskHeartbeat? {
      hide ApplyCore;
      EndKeepsKeys(s, e);
    }
  }

  lemma ScheduledIdOnce(def: Definition, events: seq<Event>, id: TaskId, i: nat, j: nat)
    requires LegalFrom(InitialCore(def), events) && i < j < |events|
    ensures !(SchedulesId(events[i], id) && SchedulesId(events[j], id))
  {
    hide Inv, StateOf, LegalFrom, InitialCore, ApplyCore, FitsStep, LatestEligible, DependenciesCompleted;
    if SchedulesId(events[i], id) && SchedulesId(events[j], id) {
      At(def, events, j);
      ScheduledTaskStays(def, events[..j], i);
    }
  }

  /** In every reachable store each task row has exactly the step, kind, phase, queue, activity, attempts, input and
      creation time of the one event that scheduled the task, at every point of the task's life. */
  lemma RowAsScheduled(defs: Definitions, ops: seq<Op>, id: TaskId)
    requires Registered(defs) && id in Exec(defs, ops).tasks
    ensures var db := Exec(defs, ops);
            var row, h := db.tasks[id], HistoryOf(db.history, db.tasks[id].runId);
            && (exists i :: 0 <= i < |h| && SchedulesId(h[i], id))
            && (forall i :: 0 <= i < |h| && SchedulesId(h[i], id) ==> Holds(row, h[i]))
  {
    hide Exec, Registered, DbOk, RunOk, KeptByStore, KeptByCommands, HoldsAtStart, Holds, LegalFrom, ValidDefinition;
    var db := Exec(defs, ops);
    ReachableOk(defs, ops);
    RunOfTask(defs, db, id);
    HeldKeptByStore();
    HeldKeptByCommands();
    HeldAtStart();
    var r, row := db.tasks[id].runId, db.tasks[id];
    EveryView(defs, ops, r, v => AllHeld(v));
    assert Held(ViewOf(db, r), id);
    var h := HistoryOf(db.history, r);
    var k :| 0 <= k < |h| && Holds(row, h[k]);
    assert SchedulesId(h[k], id) by { HeldSchedules(row, h[k]); }
    ReachableHistory(defs, ops, r);
    var def := defs[db.runs[r].workflowName];
    forall i | 0 <= i < |h| && SchedulesId(h[i], id) ensures Holds(row, h[i]) {
      if i < k { ScheduledIdOnce(def, h, id, i, k); }
      if k < i { ScheduledIdOnce(def, h, id, k, i); }
    }
  }

  lemma HeldSchedules(row: TaskRecord, e: Event)
    requires Holds(row, e)
    ensures SchedulesId(e, row.id)
  {
  }

  // ------------------------------------------------------------------ the last error

  /** What an event says went wrong with task `id`. */
  function Problem(p: Payload, id: TaskId): Option<string> {
    match p
    case TaskFailed(k, _, _, error, _) => if k == id then Some(error) else None
    case TaskCancelled(k, _, reason, _) => if k == id then Some(reason) else None
    case _ => None
  }

  function LastProblem(events: seq<Event>, id: TaskId): Option<string> {
    if |events| == 0 then None
    else
      var problem := Problem(events[|events| - 1].payload, id);
      if problem.Some? then problem else LastProblem(events[..|events| - 1], id)
  }

  /** What an event makes of the error of task `id`. */
  predicate ErrorFollows(s: Core, s': Core, e: Event, id: TaskId) {
    && (id in s.tasks ==> id in s'.tasks)
    && (id in s'.tasks ==>
          s'.tasks[id].error == Problem(e.payload, id).GetOr(if id in s.tasks then s.tasks[id].error else ""))
    && (Problem(e.payload, id).Some? ==> id in s.tasks)
  }

  lemma MoveError(s: Core, e: Event, id: TaskId)
    requires e.payload.TaskFailed? || e.payload.TaskRetryScheduled? || e.payload.TaskCancelled?
             || e.payload.TaskScheduled?
    requires Legal(s, e) && ApplyCore(s, e).Ok?
    ensures ErrorFollows(s, ApplyCore(s, e).value, e, id)
  {
    hide LatestEligible, DependenciesCompleted, FitsStep, BackoffForAttempt;
  }

  lemma QuietError(s: Core, e: Event, id: TaskId)
    requires e.payload.TaskCompleted? || e.payload.TimerFired? || e.payload.TaskLeased? || e.payload.TaskHeartbeat?
    requires ApplyCore(s, e).Ok?
    ensures ErrorFollows(s, ApplyCore(s, e).value, e, id)
  {
  }

  lemma EventError(s: Core, e: Event, id: TaskId)
    requires Legal(s, e) && ApplyCore(s, e).Ok?
    ensures ErrorFollows(s, ApplyCore(s, e).value, e, id)
  {
    var p := e.payload;
    if p.TaskFailed? || p.TaskRetryScheduled? || p.TaskCancelled? || p.TaskScheduled? {
      hide Legal, ApplyCore, ErrorFollows;
      MoveError(s, e, id);
    } else if p.TaskCompleted? || p.TimerFired? || p.TaskLeased? || p.TaskHeartbeat? {
      hide Legal, ApplyCore, ErrorFollows;
      QuietError(s, e, id);
    } else {
      hide LatestEligible;
    }
  }

  lemma {:induction false} ReplayedError(def: Definition, events: seq<Event>, id: TaskId)
    requires LegalFrom(InitialCore(def), events)
    ensures id in StateOf(def, events).tasks
            ==> StateOf(def, events).tasks[id].error == LastProblem(events, id).GetOr("")
    ensures id !in StateOf(def, events).tasks ==> LastProblem(events, id).None?
  {
    hide Inv, Legal, ApplyCore, StateOf, LegalFrom, Problem;
    if events == [] {
      StateOfEmpty(def);
    } else {
      var init, e := events[..|events| - 1], events[|events| - 1];
      StateStep(def, events);
      ReplayedError(def, init, id);
      EventError(StateOf(def, init), e, id);
    }
  }

  /** In every reachable store the error of a task row is that of the last event that reported one: a failure, or the
      revocation. */
  lemma RowErrorIsLast(defs: Definitions, ops: seq<Op>, id: TaskId)
    requires Registered(defs) && id in Exec(defs, ops).tasks
    ensures var db := Exec(defs, ops);
            db.tasks[id].lastError == LastProblem(HistoryOf(db.history, db.tasks[id].runId), id).GetOr("")
  {
    hide Exec, Registered, DbOk, RunOk, StateOf, LegalFrom, ValidDefinition, LastProblem, HistoryOf;
    var db := Exec(defs, ops);
    ReachableOk(defs, ops);
    RunOfTask(defs, db, id);
    var r := db.tasks[id].runId;
    ReachableHistory(defs, ops, r);
    RowsAreReplay(defs, ops, r, id);
    ReplayedError(defs[db.runs[r].workflowName], HistoryOf(db.history, r), id);
  }
}
