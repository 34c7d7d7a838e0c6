/** Commands whose three reads are separate steps: every one that commits does what it would have done atomically. */
module Serial {
  import opened Prelude
  import opened Workflow
  import opened History
  import opened Engine
  import opened Reducer
  import opened Invariant
  import opened Commands
  import opened Tracking
  import opened Tables
  import opened Runs
  import opened System
  import opened Operations
  import opened Summaries

  /** How far a command has got with its reads; a request about a task began with reading that task's row. */
  datatype Flight =
    | Located(req: Request, row: Option<TaskRecord>, runId: RunId)
    | HasRun(req: Request, row: Option<TaskRecord>, run: RunRecord)
    | HasHistory(req: Request, row: Option<TaskRecord>, run: RunRecord, events: seq<Event>)
    | HasTasks(req: Request, row: Option<TaskRecord>, run: RunRecord, events: seq<Event>,
               listing: seq<TaskId>, tasks: map<TaskId, TaskRecord>)

  /** The store and the commands in flight. */
  datatype Sys = Sys(db: Db, flights: map<nat, Flight>)

  /** One atomic step: a read or the commit of flight `f`, or an operation that is a single transaction. */
  datatype Action =
    | LocateTask(f: nat, req: Request)
    | ReadRun(f: nat)
    | ReadHistory(f: nat)
    | ReadTasks(f: nat, listing: seq<TaskId>)
    | Commit(f: nat, now: Time, uuid: nat -> TaskId)
    | Transaction(op: Op)

  function LocatedRow(db: Db, req: Request): Option<TaskRecord> {
    if !req.CancelRequest? && req.task in db.tasks then Some(db.tasks[req.task]) else None
  }

  /** What a command works on: the reads put together, with the task's own row if the listing lacks it. */
  function LoadRead(defs: Definitions, f: Flight): Result<Loaded, Error>
    requires f.HasTasks?
  {
    var ld :- LoadFrom(defs, f.run, f.events, f.listing, f.tasks);
    if f.row.Some? && f.row.value.id !in ld.tasks
    then Ok(ld.(tasks := ld.tasks[f.row.value.id := f.row.value], listing := ld.listing + [f.row.value.id]))
    else Ok(ld)
  }

  /** The write of a flight that has read everything. */
  function CommitFlight(defs: Definitions, db: Db, f: Flight, now: Time, uuid: nat -> TaskId): Result<Db, Error>
    requires f.HasTasks?
  {
    var ld :- LoadRead(defs, f);
    Write(db, f.run.version, Execute(Env(f.run.id, now, uuid), ld, f.req))
  }

  ghost predicate MayCommit(db: Db, f: Flight, uuid: nat -> TaskId) {
    f.HasTasks? && Admissible(db, f.req) && NewIds(db, uuid)
  }

  ghost function Act(defs: Definitions, sys: Sys, a: Action): Sys {
    match a
    case LocateTask(f, req) =>
      if Locate(sys.db, req).Err? then sys
      else sys.(flights := sys.flights[f := Located(req, LocatedRow(sys.db, req), Locate(sys.db, req).value)])
    case ReadRun(f) =>
      if f in sys.flights && sys.flights[f].Located? && sys.flights[f].runId in sys.db.runs
      then sys.(flights := sys.flights[f := HasRun(sys.flights[f].req, sys.flights[f].row,
                                                   sys.db.runs[sys.flights[f].runId])])
      else sys
    case ReadHistory(f) =>
      if f in sys.flights && sys.flights[f].HasRun?
      then sys.(flights := sys.flights[f := HasHistory(sys.flights[f].req, sys.flights[f].row, sys.flights[f].run,
                                                      HistoryOf(sys.db.history, sys.flights[f].run.id))])
      else sys
    case ReadTasks(f, listing) =>
      if f in sys.flights && sys.flights[f].HasHistory? && Lists(listing, RowsOf(sys.db.tasks, sys.flights[f].run.id))
      then sys.(flights := sys.flights[f := HasTasks(sys.flights[f].req, sys.flights[f].row, sys.flights[f].run,
                                                     sys.flights[f].events,
                                                    listing, RowsOf(sys.db.tasks, sys.flights[f].run.id))])
      else sys
    case Commit(f, now, uuid) =>
      if f in sys.flights && MayCommit(sys.db, sys.flights[f], uuid)
      then Sys(CommitFlight(defs, sys.db, sys.flights[f], now, uuid).GetOr(sys.db), sys.flights - {f})
      else sys
    case Transaction(op) => if op.Submit? then sys else sys.(db := Next(defs, sys.db, op))
  }

  ghost function Interleave(defs: Definitions, actions: seq<Action>): Sys {
    if |actions| == 0 then Sys(EMPTY, map[])
        else Act(defs, Interleave(defs, actions[..|actions| - 1]), actions[|actions| - 1])
  }

  /** The atomic operation an action stands for, if it wrote anything. */
  ghost function Effect(defs: Definitions, sys: Sys, a: Action): seq<Op> {
    if a.Transaction? && !a.op.Submit? then [a.op]
    else if a.Commit? && a.f in sys.flights && MayCommit(sys.db, sys.flights[a.f], a.uuid)
            && CommitFlight(defs, sys.db, sys.flights[a.f], a.now, a.uuid).Ok?
            && CommitFlight(defs, sys.db, sys.flights[a.f], a.now, a.uuid).value != sys.db
    then [Submit(sys.flights[a.f].req, sys.flights[a.f].listing, a.now, a.uuid)]
    else []
  }

  /** The operations in the order of their commits. */
  ghost function Linearise(defs: Definitions, actions: seq<Action>): seq<Op> {
    if |actions| == 0 then []
    else
      var init := actions[..|actions| - 1];
      Linearise(defs, init) + Effect(defs, Interleave(defs, init), actions[|actions| - 1])
  }

  // ------------------------------------------------------------------ what the reads are worth

  /** The request is about run `r`, now and from then on. */
  predicate About(db: Db, req: Request, row: Option<TaskRecord>, r: RunId) {
    && Locate(db, req) == Ok(r)
    && (row.Some? ==> !req.CancelRequest? && row.value.id == req.task)
    && (row.None? ==> req.CancelRequest?)
  }

  /** The run is no older than its row was when it was read; if it still has that version, every read is current. */
  ghost predicate Current(db: Db, f: Flight)
    requires !f.Located?
  {
    var r := f.run.id;
    && r in db.runs && f.run.version <= db.runs[r].version
    && (f.run.version == db.runs[r].version ==>
          && f.run == db.runs[r]
          && (!f.HasRun? ==> f.events == HistoryOf(db.history, r))
          && (f.HasTasks? ==> f.tasks == RowsOf(db.tasks, r)))
  }

  ghost predicate FlightOk(db: Db, f: Flight) {
    && About(db, f.req, f.row, if f.Located? then f.runId else f.run.id)
    && (!f.Located? ==> Current(db, f))
    && (f.HasTasks? ==> Lists(f.listing, f.tasks))
  }

  ghost predicate SysOk(defs: Definitions, sys: Sys) {
    && DbOk(defs, sys.db)
    && (forall f {:trigger FlightOk(sys.db, sys.flights[f])} :: f in sys.flights ==> FlightOk(sys.db, sys.flights[f]))
  }

  /** What other writers do meanwhile never makes a stale read look current. */
  lemma FlightSurvives(db: Db, db': Db, f: Flight, beat: bool)
    requires FlightOk(db, f) && Evolves(db, db', beat)
    ensures FlightOk(db', f)
  {
    if !f.Located? {
      assert RunGrew(db, db', f.run.id, beat);
    }
    hide RowsOf, HistoryOf, Lists, Counts;
  }

  lemma {:induction false} OthersSurvive(defs: Definitions, sys: Sys, db': Db, flights: map<nat, Flight>, beat: bool)
    requires SysOk(defs, sys) && Evolves(sys.db, db', beat) && DbOk(defs, db')
    requires forall f {:trigger flights[f]} :: f in flights ==> f in sys.flights && flights[f] == sys.flights[f]
    ensures SysOk(defs, Sys(db', flights))
  {
    hide DbOk, Evolves, FlightOk;
    forall f | f in flights ensures FlightOk(db', flights[f]) {
      assert FlightOk(sys.db, sys.flights[f]);
      FlightSurvives(sys.db, db', flights[f], beat);
    }
  }

  lemma ReadKeepsOk(defs: Definitions, sys: Sys, k: nat, f: Flight)
    requires SysOk(defs, sys) && FlightOk(sys.db, f)
    ensures SysOk(defs, Sys(sys.db, sys.flights[k := f]))
  {
    hide DbOk, FlightOk;
    var flights := sys.flights[k := f];
    forall j | j in flights ensures FlightOk(sys.db, flights[j]) {
      assert j != k ==> FlightOk(sys.db, sys.flights[j]);
    }
  }

  lemma RunIdIsKey(defs: Definitions, db: Db, r: RunId)
    requires DbOk(defs, db) && r in db.runs
    ensures db.runs[r].id == r
  {
    assert RunOk(defs, db, r);
    hide ViewOk;
  }

  // ------------------------------------------------------------------ the commit

  /** The row a command writes is that of the run it read. */
  lemma ExecuteKeepsId(env: Env, ld: Loaded, req: Request)
    requires Execute(env, ld, req).Append? && ld.state.run.id == ld.run.id
    ensures Execute(env, ld, req).run.id == ld.run.id
  {
    hide Execute, IsFinalFailure;
    SummaryTexts(env, ld, req);
  }

  /** What was read is an atomic load at the moment of the commit. */
  lemma ReadsAreLoad(defs: Definitions, db: Db, f: Flight)
    requires f.HasTasks? && FlightOk(db, f) && f.run.id in db.runs && f.run.version == db.runs[f.run.id].version
    ensures LoadRead(defs, f) == Load(defs, db, f.run.id, f.listing)
  {
    hide LoadFrom, Lists, HistoryOf;
    if LoadFrom(defs, f.run, f.events, f.listing, f.tasks).Ok? { LoadKeepsReads(defs, f); }
    assert f.row.Some? ==> f.row.value.id in f.tasks;
  }

  lemma LoadKeepsReads(defs: Definitions, f: Flight)
    requires f.HasTasks? && LoadFrom(defs, f.run, f.events, f.listing, f.tasks).Ok?
    ensures var ld := LoadFrom(defs, f.run, f.events, f.listing, f.tasks).value;
            ld.tasks == f.tasks && ld.run == f.run && ld.state.run.id == f.run.id
  {
    hide Fold;
    var def := defs[f.run.workflowName];
    FoldKeepsId(Initial(def, f.run), f.events);
  }

  lemma ReadsKeepId(defs: Definitions, f: Flight)
    requires f.HasTasks? && LoadRead(defs, f).Ok?
    ensures var ld := LoadRead(defs, f).value; ld.run == f.run && ld.state.run.id == f.run.id
  {
    hide LoadFrom;
    LoadKeepsReads(defs, f);
  }

  /** A flight that writes has passed the version compare on its own run. */
  lemma WriteNeedsVersion(defs: Definitions, db: Db, f: Flight, now: Time, uuid: nat -> TaskId)
    requires f.HasTasks? && CommitFlight(defs, db, f, now, uuid).Ok? && CommitFlight(defs, db, f, now, uuid).value != db
    ensures f.run.id in db.runs && db.runs[f.run.id].version == f.run.version
  {
    hide LoadRead, Execute, InsertEvents, MutateTables;
    ReadsKeepId(defs, f);
    var env, ld := Env(f.run.id, now, uuid), LoadRead(defs, f).value;
    ExecuteKeepsId(env, ld, f.req);
  }

  /** A flight that writes does exactly what its command would do as one atomic step on the state at commit time. */
  lemma CommitIsAtomic(defs: Definitions, db: Db, f: Flight, now: Time, uuid: nat -> TaskId)
    requires MayCommit(db, f, uuid) && FlightOk(db, f)
    requires CommitFlight(defs, db, f, now, uuid).Ok? && CommitFlight(defs, db, f, now, uuid).value != db
    ensures Allowed(db, Submit(f.req, f.listing, now, uuid))
    ensures Perform(defs, db, Submit(f.req, f.listing, now, uuid)) == CommitFlight(defs, db, f, now, uuid)
  {
    hide LoadRead, Load, Execute, Write, NewIds, Lists, Admissible, Locate, HistoryOf, RowsOf, Command;
    WriteNeedsVersion(defs, db, f, now, uuid) by { hide FlightOk, CommitFlight; }
    ReadsAreLoad(defs, db, f) by { hide FlightOk; }
    CommandIs(defs, db, f.req, f.listing, now, uuid);
    ReadsKeepId(defs, f);
  }

  // ------------------------------------------------------------------ every interleaving

  lemma LocateKeepsOk(defs: Definitions, sys: Sys, f: nat, req: Request)
    requires SysOk(defs, sys)
    ensures SysOk(defs, Act(defs, sys, LocateTask(f, req)))
  {
    if Locate(sys.db, req).Ok? {
      LocatedIsAbout(defs, sys.db, req) by { hide FlightOk; }
      hide DbOk, Locate, LocatedRow;
      ReadKeepsOk(defs, sys, f, Located(req, LocatedRow(sys.db, req), Locate(sys.db, req).value)) by { hide SysOk; }
    }
  }

  lemma LocatedIsAbout(defs: Definitions, db: Db, req: Request)
    requires DbOk(defs, db) && Locate(db, req).Ok?
    ensures About(db, req, LocatedRow(db, req), Locate(db, req).value)
  {
    DbTasks(defs, db);
    hide DbOk;
  }

  lemma FlightIn(defs: Definitions, sys: Sys, k: nat)
    requires SysOk(defs, sys) && k in sys.flights
    ensures FlightOk(sys.db, sys.flights[k]) && DbOk(defs, sys.db)
  {
    hide FlightOk, DbOk;
  }

  lemma ReadsKeepOk(defs: Definitions, sys: Sys, a: Action)
    requires SysOk(defs, sys) && (a.ReadRun? || a.ReadHistory? || a.ReadTasks?)
    ensures SysOk(defs, Act(defs, sys, a))
  {
    hide SysOk, HistoryOf, RowsOf, Lists, About;
    if a.f in sys.flights {
      FlightIn(defs, sys, a.f);
      hide DbOk;
      if sys.flights[a.f].Located? && sys.flights[a.f].runId in sys.db.runs {
        RunIdIsKey(defs, sys.db, sys.flights[a.f].runId);
      }
      if Act(defs, sys, a) != sys {
        ReadKeepsOk(defs, sys, a.f, Act(defs, sys, a).flights[a.f]);
      }
    }
  }

  /** A commit, or an operation that is one transaction, takes the store where the atomic operation takes it. */
  lemma WriteIsAtomic(defs: Definitions, sys: Sys, a: Action)
    requires Registered(defs) && SysOk(defs, sys) && (a.Commit? || a.Transaction?)
    ensures SysOk(defs, Act(defs, sys, a))
    ensures Act(defs, sys, a).db == if Effect(defs, sys, a) == [] then sys.db
              else Next(defs, sys.db, Effect(defs, sys, a)[0])
    ensures |Effect(defs, sys, a)| <= 1
  {
    assert DbOk(defs, sys.db) by { hide DbOk, FlightOk; }
    hide DbOk, FlightOk, SysOk, Registered, CommitFlight, Evolves, Allowed, Perform;
    var sys' := Act(defs, sys, a);
    if Effect(defs, sys, a) == [] {
      SameEvolves(sys.db, false);
      OthersSurvive(defs, sys, sys.db, sys'.flights, false);
    } else {
      var op := Effect(defs, sys, a)[0];
      if a.Commit? {
        FlightIn(defs, sys, a.f);
        CommitIsAtomic(defs, sys.db, sys.flights[a.f], a.now, a.uuid);
      }
      assert sys'.db == Next(defs, sys.db, op);
      NextKeeps(defs, sys.db, op);
      OthersSurvive(defs, sys, sys'.db, sys'.flights, op.Heartbeat?);
    }
  }

  lemma ReadsAreSilent(defs: Definitions, sys: Sys, a: Action)
    requires !a.Commit? && !a.Transaction?
    ensures Effect(defs, sys, a) == [] && Act(defs, sys, a).db == sys.db
  {
    hide Locate, RowsOf, HistoryOf, Lists;
  }

  /** Any interleaving of the reads and commits of any number of commands equals its commits, done atomically one by
      one. */
  lemma {:induction false} Serialisable(defs: Definitions, actions: seq<Action>)
    requires Registered(defs)
    ensures Interleave(defs, actions).db == Exec(defs, Linearise(defs, actions))
    ensures SysOk(defs, Interleave(defs, actions))
  {
    hide Registered, SysOk, Act, Effect, Next;
    if actions == [] {
      NothingInFlight(defs);
    } else {
      var init, a := actions[..|actions| - 1], actions[|actions| - 1];
      Serialisable(defs, init);
      var sys, ops := Interleave(defs, init), Linearise(defs, init);
      if a.Commit? || a.Transaction? {
        WriteIsAtomic(defs, sys, a);
        if Effect(defs, sys, a) == [] {
          assert ops + [] == ops;
        } else {
          var op := Effect(defs, sys, a)[0];
          assert Effect(defs, sys, a) == [op];
          ExecSnoc(defs, ops, op);
        }
      } else {
        ReadsAreSilent(defs, sys, a);
        assert ops + [] == ops;
        if a.LocateTask? { LocateKeepsOk(defs, sys, a.f, a.req); } else { ReadsKeepOk(defs, sys, a); }
      }
    }
  }

  lemma NothingInFlight(defs: Definitions)
    ensures SysOk(defs, Sys(EMPTY, map[]))
  {
    EmptyOk(defs);
    hide DbOk;
  }
}
