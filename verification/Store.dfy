/** The store's transactions, changing the tables row by row (internal/store/sqlite/store.go,
    internal/store/postgres/store.go). */
module Store {
  import opened Prelude
  import opened Workflow
  import opened History
  import opened Engine
  import opened Commands
  import opened Tracking
  import opened Tables

  /** Rows are kept in the order of their key, and no key occurs twice. */
  predicate Ascending(rows: seq<Event>) {
    forall i, j :: 0 <= i < j < |rows| ==> rows[i].sequence < rows[j].sequence
  }

  ghost predicate KeysAscend(history: map<RunId, seq<Event>>) {
    forall r {:trigger history[r]} :: r in history ==> Ascending(history[r])
  }

  lemma {:induction false} InsertKeepsAscending(rows: seq<Event>, e: Event)
    requires Ascending(rows) && !HasSequence(rows, e.sequence)
    ensures Ascending(InsertOrdered(rows, e))
    ensures forall x {:trigger x in InsertOrdered(rows, e)} :: x in InsertOrdered(rows, e) <==> x in rows || x == e
  {
    if |rows| > 0 && rows[|rows| - 1].sequence >= e.sequence {
      var init, last := rows[..|rows| - 1], rows[|rows| - 1];
      assert last.sequence != e.sequence;
      InsertKeepsAscending(init, e);
      assert rows == init + [last];
      LastOneOn(InsertOrdered(init, e), init, e, last);
    } else {
      assert forall i :: 0 <= i < |rows| ==> rows[i].sequence <= rows[|rows| - 1].sequence;
    }
  }

  lemma LastOneOn(inserted: seq<Event>, init: seq<Event>, e: Event, last: Event)
    requires Ascending(inserted) && Ascending(init + [last]) && e.sequence < last.sequence
    requires forall x :: x in inserted <==> x in init || x == e
    ensures Ascending(inserted + [last])
  {
    forall i | 0 <= i < |inserted| ensures inserted[i].sequence < last.sequence {
      if inserted[i] != e {
        assert inserted[i] in init;
        var k :| 0 <= k < |init| && init[k] == inserted[i];
        assert (init + [last])[k] == init[k] && (init + [last])[|init|] == last;
      }
    }
  }

  lemma InsertEventKeepsAscending(history: map<RunId, seq<Event>>, e: Event)
    requires KeysAscend(history) && InsertEvent(history, e).Ok?
    ensures KeysAscend(InsertEvent(history, e).value)
  {
    InsertKeepsAscending(HistoryOf(history, e.runId), e);
    hide Ascending, InsertOrdered, HasSequence;
  }

  /** Those of the listed tasks that can be leased. */
  function AvailableAmong(tasks: map<TaskId, TaskRecord>, ids: seq<TaskId>): seq<TaskId> {
    if |ids| == 0 then []
    else
      var id := ids[|ids| - 1];
      AvailableAmong(tasks, ids[..|ids| - 1]) + if id in tasks && tasks[id].status.Available? then [id] else []
  }

  lemma NotBefore(ids: seq<TaskId>, i: nat)
    requires NoDup(ids) && i < |ids|
    ensures ids[i] !in ids[..i]
  {
  }

  /** Tables in a transaction: what is written here is seen by nobody until it is committed. */
  class Transaction {
    var runs: map<RunId, RunRecord>
    var history: map<RunId, seq<Event>>
    var tasks: map<TaskId, TaskRecord>

    function Contents(): Db
      reads this
    {
      Db(runs, history, tasks)
    }

    constructor (db: Db)
      ensures Contents() == db
    {
      runs, history, tasks := db.runs, db.history, db.tasks;
    }

    method AddEvent(e: Event) returns (err: Option<Error>)
      requires KeysAscend(history)
      modifies `history
      ensures KeysAscend(history)
      ensures InsertEvent(old(history), e).Ok? ==> err.None? && history == InsertEvent(old(history), e).value
      ensures InsertEvent(old(history), e).Err?
              ==> err == Some(InsertEvent(old(history), e).error) && history == old(history)
    {
      var rows := HistoryOf(history, e.runId);
      var i := 0;
      while i < |rows|
        invariant 0 <= i <= |rows| && history == old(history)
        invariant !HasSequence(rows[..i], e.sequence)
      {
        if rows[i].sequence == e.sequence {
          return Some(DuplicateKey);
        }
        i := i + 1;
      }
      assert rows[..i] == rows;
      InsertEventKeepsAscending(history, e);
      history := history[e.runId := InsertOrdered(rows, e)];
      return None;
    }

    method AddEvents(events: seq<Event>) returns (err: Option<Error>)
      requires KeysAscend(history)
      modifies `history
      ensures KeysAscend(history)
      ensures InsertEvents(old(history), events).Ok?
              ==> err.None? && history == InsertEvents(old(history), events).value
      ensures InsertEvents(old(history), events).Err? ==> err == Some(InsertEvents(old(history), events).error)
    {
      hide InsertEvent, Ascending;
      var i := 0;
      while i < |events|
        invariant 0 <= i <= |events| && KeysAscend(history)
        invariant InsertEvents(old(history), events[..i]) == Ok(history)
      {
        assert events[..i + 1][..i] == events[..i];
        err := AddEvent(events[i]);
        if err.Some? {
          InsertFails(old(history), events, i + 1);
          return;
        }
        i := i + 1;
      }
      assert events[..i] == events;
      return None;
    }

    method Mutate(mutations: seq<Mutation>) returns (err: Option<Error>)
      modifies `tasks
      ensures MutateTables(old(tasks), mutations).Ok?
              ==> err.None? && tasks == MutateTables(old(tasks), mutations).value
      ensures MutateTables(old(tasks), mutations).Err? ==> err == Some(MutateTables(old(tasks), mutations).error)
    {
      hide Columns;
      var i := 0;
      while i < |mutations|
        invariant 0 <= i <= |mutations|
        invariant MutateTables(old(tasks), mutations[..i]) == Ok(tasks)
      {
        assert mutations[..i + 1][..i] == mutations[..i];
        match mutations[i] {
          case Insert(task) =>
            if task.id in tasks {
              MutateFails(old(tasks), mutations, i + 1);
              return Some(DuplicateKey);
            }
            tasks := tasks[task.id := task];
          case Update(task) =>
            if task.id in tasks {
              tasks := tasks[task.id := Columns(tasks[task.id], task)];
            }
        }
        i := i + 1;
      }
      assert mutations[..i] == mutations;
      return None;
    }

    /** The greatest sequence number of the run, plus one. */
    method NextSequenceOf(runId: RunId) returns (n: nat)
      requires KeysAscend(history)
      ensures n == NextSequence(HistoryOf(history, runId))
    {
      var rows := HistoryOf(history, runId);
      var greatest := 0;
      var i := 0;
      while i < |rows|
        invariant 0 <= i <= |rows|
        invariant greatest == if i == 0 then 0 else rows[i - 1].sequence
      {
        if rows[i].sequence > greatest {
          greatest := rows[i].sequence;
        }
        i := i + 1;
      }
      return greatest + 1;
    }

    /** Appends an event of the store's own and makes its number the version of the run. */
    method Append(runId: RunId, stepId: StepId, taskId: TaskId, payload: Payload, now: Time)
      returns (err: Option<Error>)
      requires KeysAscend(history)
      modifies `history, `runs
      ensures KeysAscend(history)
      ensures AppendNumbered(old(Contents()), runId, stepId, taskId, payload, now).Ok? ==>
                err.None? && Contents() == AppendNumbered(old(Contents()), runId, stepId, taskId, payload, now).value
      ensures AppendNumbered(old(Contents()), runId, stepId, taskId, payload, now).Err? ==>
                err == Some(AppendNumbered(old(Contents()), runId, stepId, taskId, payload, now).error)
    {
      hide InsertEvent, NextSequence, Ascending;
      var n := NextSequenceOf(runId);
      err := AddEvent(Event(runId, n, stepId, Some(taskId), payload, now));
      if err.Some? {
        return;
      }
      if runId in runs {
        runs := runs[runId := runs[runId].(version := n, updatedAt := now)];
      }
    }
  }

  lemma {:induction false} InsertFails(history: map<RunId, seq<Event>>, events: seq<Event>, n: nat)
    requires n <= |events| && InsertEvents(history, events[..n]).Err?
    ensures InsertEvents(history, events) == InsertEvents(history, events[..n])
  {
    hide InsertEvent;
    if n == |events| {
      assert events[..n] == events;
    } else {
      var init := events[..|events| - 1];
      assert init[..n] == events[..n];
      InsertFails(history, init, n);
    }
  }

  lemma {:induction false} MutateFails(tasks: map<TaskId, TaskRecord>, mutations: seq<Mutation>, n: nat)
    requires n <= |mutations| && MutateTables(tasks, mutations[..n]).Err?
    ensures MutateTables(tasks, mutations) == MutateTables(tasks, mutations[..n])
  {
    hide MutateTable;
    if n == |mutations| {
      assert mutations[..n] == mutations;
    } else {
      var init := mutations[..|mutations| - 1];
      assert init[..n] == mutations[..n];
      MutateFails(tasks, init, n);
    }
  }

  /** The store: a transaction that fails is rolled back, one that succeeds replaces the tables in one step. */
  class Database {
    var runs: map<RunId, RunRecord>
    var history: map<RunId, seq<Event>>
    var tasks: map<TaskId, TaskRecord>

    function Contents(): Db
      reads this
    {
      Db(runs, history, tasks)
    }

    ghost predicate Valid()
      reads this
    {
      KeysAscend(history)
    }

    /** The store is what the transaction makes of it, or unchanged with the error reported. */
    ghost predicate Committed(result: Result<Db, Error>, before: Db, err: Option<Error>)
      reads this
    {
      if result.Ok? then err.None? && Contents() == result.value else err == Some(result.error) && Contents() == before
    }

    constructor ()
      ensures Valid() && Contents() == EMPTY
    {
      runs, history, tasks := map[], map[], map[];
    }

    method Commit(tx: Transaction)
      requires KeysAscend(tx.history)
      modifies this
      ensures Valid() && Contents() == tx.Contents()
    {
      runs, history, tasks := tx.runs, tx.history, tx.tasks;
    }

    method InsertRun(run: RunRecord, events: seq<Event>, mutations: seq<Mutation>) returns (err: Option<Error>)
      requires Valid()
      modifies this
      ensures Valid() && Committed(CreateRun(old(Contents()), run, events, mutations), old(Contents()), err)
    {
      hide InsertEvents, MutateTables, Ascending;
      var tx := new Transaction(Contents());
      if run.id in tx.runs {
        return Some(DuplicateKey);
      }
      tx.runs := tx.runs[run.id := run];
      err := tx.AddEvents(events);
      if err.Some? {
        return;
      }
      err := tx.Mutate(mutations);
      if err.Some? {
        return;
      }
      Commit(tx);
    }

    /** The compare of the version, the update of the run row, the events and the task rows: all or nothing. */
    method AppendChanges(run: RunRecord, expectedVersion: nat, events: seq<Event>, mutations: seq<Mutation>)
      returns (err: Option<Error>)
      requires Valid()
      modifies this
      ensures Valid() && Committed(AppendRunChanges(old(Contents()), run, expectedVersion, events, mutations),
                                   old(Contents()), err)
    {
      hide InsertEvents, MutateTables, Ascending;
      var tx := new Transaction(Contents());
      if run.id !in tx.runs || tx.runs[run.id].version != expectedVersion {
        return Some(VersionConflict);
      }
      tx.runs := tx.runs[run.id := RunColumns(tx.runs[run.id], run)];
      err := tx.AddEvents(events);
      if err.Some? {
        return;
      }
      err := tx.Mutate(mutations);
      if err.Some? {
        return;
      }
      Commit(tx);
    }

    /** The loop over the selected rows: each that is still available is leased, with an event of its own. */
    method LeaseSelected(ids: seq<TaskId>, worker: string, ttl: int, now: Time)
      returns (err: Option<Error>, leased: seq<TaskId>)
      requires Valid()
      modifies this
      ensures Valid() && Committed(LeaseTasks(old(Contents()), ids, worker, ttl, now), old(Contents()), err)
      ensures err.None? && NoDup(ids) ==> leased == AvailableAmong(old(tasks), ids)
    {
      hide LeaseOne, Ascending, NoDup;
      var tx := new Transaction(Contents());
      leased := [];
      var i := 0;
      while i < |ids|
        invariant 0 <= i <= |ids| && fresh(tx) && KeysAscend(tx.history) && unchanged(this)
        invariant LeaseTasks(old(Contents()), ids[..i], worker, ttl, now) == Ok(tx.Contents())
        invariant tx.tasks.Keys == tasks.Keys && forall k :: k in tasks && k !in ids[..i] ==> tx.tasks[k] == tasks[k]
        invariant NoDup(ids) ==> leased == AvailableAmong(tasks, ids[..i])
      {
        assert ids[..i + 1][..i] == ids[..i];
        if NoDup(ids) { NotBefore(ids, i); }
        var e, taken := LeaseRow(tx, ids[i], worker, ttl, now);
        if e.Some? {
          LeaseFails(old(Contents()), ids, worker, ttl, now, i + 1);
          return e, [];
        }
        if taken {
          leased := leased + [ids[i]];
        }
        i := i + 1;
      }
      assert ids[..i] == ids;
      Commit(tx);
      return None, leased;
    }

    method LeaseRow(tx: Transaction, id: TaskId, worker: string, ttl: int, now: Time)
      returns (err: Option<Error>, taken: bool)
      requires KeysAscend(tx.history)
      modifies tx
      ensures KeysAscend(tx.history)
      ensures taken == (id in old(tx.tasks) && old(tx.tasks)[id].status.Available?)
      ensures tx.tasks.Keys == old(tx.tasks).Keys
      ensures forall k :: k in tx.tasks && k != id ==> tx.tasks[k] == old(tx.tasks)[k]
      ensures LeaseOne(old(tx.Contents()), id, worker, ttl, now).Ok? ==>
                err.None? && tx.Contents() == LeaseOne(old(tx.Contents()), id, worker, ttl, now).value
      ensures LeaseOne(old(tx.Contents()), id, worker, ttl, now).Err? ==>
                err == Some(LeaseOne(old(tx.Contents()), id, worker, ttl, now).error)
    {
      hide AppendNumbered, Ascending;
      if id !in tx.tasks || !tx.tasks[id].status.Available? {
        return None, false;
      }
      var row := tx.tasks[id];
      tx.tasks := tx.tasks[id := LeasedRow(row, worker, now + ttl, now)];
      err := tx.Append(row.runId, row.stepId, id, TaskLeased(id, row.stepId, worker, row.attempt, now + ttl), now);
      taken := true;
    }

    /** Renews a lease. The reply is to say whether the run is being cancelled: `Rest.HeartbeatNeverSignals`. */
    method Heartbeat(id: TaskId, worker: string, extendBy: int, now: Time)
      returns (err: Option<Error>, cancelRequested: bool)
      requires Valid()
      modifies this
      ensures Valid() && Committed(HeartbeatTask(old(Contents()), id, worker, extendBy, now), old(Contents()), err)
      ensures err.None? ==>
                id in old(tasks) && old(tasks)[id].runId in old(runs)
                && cancelRequested == CancelSignal(old(Contents()), id)
    {
      hide AppendNumbered, Ascending;
      if id !in tasks || tasks[id].runId !in runs {
        return Some(TaskNotFound), false;
      }
      var row := tasks[id];
      if !row.status.Leased? || row.leaseOwner != worker {
        return Some(TaskLeaseLost), false;
      }
      var status := runs[row.runId].status;
      var tx := new Transaction(Contents());
      tx.tasks := tx.tasks[id := row.(heartbeatAt := Some(now), leaseExpiresAt := Some(now + extendBy),
                                      updatedAt := now)];
      err := tx.Append(row.runId, row.stepId, id, TaskHeartbeat(id, worker, now + extendBy), now);
      if err.Some? {
        return err, false;
      }
      Commit(tx);
      return None, row.phase.Forward? && (status.Cancelling? || status.Cancelled?);
    }
  }

  lemma {:induction false} LeaseFails(db: Db, ids: seq<TaskId>, worker: string, ttl: int, now: Time, n: nat)
    requires n <= |ids| && LeaseTasks(db, ids[..n], worker, ttl, now).Err?
    ensures LeaseTasks(db, ids, worker, ttl, now) == LeaseTasks(db, ids[..n], worker, ttl, now)
  {
    hide LeaseOne;
    if n == |ids| {
      assert ids[..n] == ids;
    } else {
      var init := ids[..|ids| - 1];
      assert init[..n] == ids[..n];
      LeaseFails(db, init, worker, ttl, now, n);
    }
  }
}
