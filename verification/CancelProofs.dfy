/** Cancelling a run and starting one: the two commands that touch many tasks. */
module CancelProofs {
  import opened Prelude
  import opened Workflow
  import opened History
  import opened Engine
  import opened Reducer
  import opened Invariant
  import opened Chronicle
  import opened Commands
  import opened Tracking
  import opened Settled
  import opened CommandProofs

  // ------------------------------------------------------------------ cancelling

  /** Some tasks of `s` have been revoked; a revoked forward task has left a lost step behind. */
  ghost predicate Revoked(s: Core, s': Core) {
    && s'.tasks.Keys == s.tasks.Keys
    && s'.cancelRequested && s'.compensating == s.compensating
    && (forall id {:trigger s'.tasks[id]} :: id in s.tasks
         ==> s'.tasks[id] == s.tasks[id] || !s'.tasks[id].status.Open())
    && (AnyLost(s) ==> AnyLost(s'))
    && NextCompensation(s') == NextCompensation(s)
    && (forall id {:trigger s'.tasks[id]} ::
          id in s.tasks && s.tasks[id].phase.Forward? && s.tasks[id].status.Open() && !s'.tasks[id].status.Open() ==>
            AnyLost(s'))
  }

  lemma RevokeOne(s: Core, s': Core, s'': Core, id: TaskId)
    requires Revoked(s, s') && Moves(s', s'', id) && Open(s', id) && s''.tasks[id].status.Cancelled?
    requires s'.tasks[id].phase.Forward? ==> s'.steps[s'.tasks[id].stepId].forwardStatus == Some(s'.tasks[id].status)
    ensures Revoked(s, s'')
  {
    LossAfterMove(s', s'', id) by { hide Revoked; }
    EndKeepsNext(s', s'', id) by { hide Revoked; }
    assert s''.cancelRequested == s'.cancelRequested && s''.compensating == s'.compensating
           && s''.tasks == s'.tasks[id := s''.tasks[id]];
    hide Moves, AnyLost, NextCompensation;
  }

  function CancelEvent(env: Env, w: Work, id: TaskId, reason: string): Event
    requires id in w.state.core.tasks
  {
    var t := w.state.core.tasks[id];
    EventOf(env, w, t.stepId, Some(id), TaskCancelled(id, t.stepId, reason, t.phase.Compensation?))
  }

  lemma CancelMoves(def: Definition, env: Env, w: Work, id: TaskId, reason: string) returns (s': Core)
    requires Inv(def, w.state.core) && Open(w.state.core, id) && w.state.core.cancelRequested && w.next > 1
    ensures Legal(w.state.core, CancelEvent(env, w, id, reason))
    ensures ApplyCore(w.state.core, CancelEvent(env, w, id, reason)) == Ok(s')
    ensures Moves(w.state.core, s', id) && s'.tasks[id].status.Cancelled?
  {
    hide Inv, NextCompensation;
    TaskEventMoves(def, w.state.core, CancelEvent(env, w, id, reason)) by { hide Moves, ApplyCore; }
    s' := ApplyCore(w.state.core, CancelEvent(env, w, id, reason)).value;
  }

  lemma ForwardStatusOf(def: Definition, s: Core, id: TaskId)
    requires Inv(def, s) && id in s.tasks && s.tasks[id].phase.Forward?
    ensures s.tasks[id].stepId in s.steps && s.steps[s.tasks[id].stepId].forwardStatus == Some(s.tasks[id].status)
  {
    assert TaskOk(s, id);
  }

  ghost predicate Revoking(env: Env, ld: Loaded, s: Core, w: Work) {
    && Good(BaseOf(ld), env, w) && Revoked(s, w.state.core)
    && (forall id {:trigger Row(ld, id)} :: id in w.state.core.tasks ==>
          Row(ld, id).id == id && Row(ld, id).stepId == w.state.core.tasks[id].stepId)
  }

  lemma CancelOneGood(env: Env, ld: Loaded, s: Core, w: Work, id: TaskId, reason: string)
    requires Revoking(env, ld, s, w)
    ensures CancelOne(env, ld, w, id, reason).Ok?
    ensures var w' := CancelOne(env, ld, w, id, reason).value;
            && Revoking(env, ld, s, w') && !Open(w'.state.core, id)
            && forall k :: Open(w'.state.core, k) ==> Open(w.state.core, k)
  {
    if Open(w.state.core, id) {
      CancelOpenGood(env, ld, s, w, id, reason) by { hide Revoking, Open, CancelOne; }
    }
  }

  lemma CancelOpenGood(env: Env, ld: Loaded, s: Core, w: Work, id: TaskId, reason: string)
    requires Revoking(env, ld, s, w) && Open(w.state.core, id)
    ensures CancelOne(env, ld, w, id, reason).Ok?
    ensures var w' := CancelOne(env, ld, w, id, reason).value;
            && Revoking(env, ld, s, w') && !Open(w'.state.core, id)
            && forall k :: Open(w'.state.core, k) ==> Open(w.state.core, k)
  {
    hide Inv, Good, Legal, ApplyCore, Moves, EmitAndUpdate, Row;
    GoodInv(BaseOf(ld), env, w);
    NextAfterOne(BaseOf(ld), env, w);
    if w.state.core.tasks[id].phase.Forward? {
      ForwardStatusOf(ld.def, w.state.core, id);
    }
    var s' := CancelMoves(ld.def, env, w, id, reason);
    hide Revoked;
    TaskEventGood(BaseOf(ld), env, ld, w, id, CancelEvent(env, w, id, reason), s');
    RevokeOne(s, w.state.core, s', id);
    OthersStayOpen(w.state.core, s', id);
    CancelOneIs(env, ld, w, id, reason, s');
    RowsStay(ld, w.state.core, s', id);
    hide CancelOne;
  }

  lemma RowsStay(ld: Loaded, s: Core, s': Core, id: TaskId)
    requires Moves(s, s', id)
    requires forall k {:trigger Row(ld, k)} ::
               k in s.tasks ==> Row(ld, k).id == k && Row(ld, k).stepId == s.tasks[k].stepId
    ensures forall k {:trigger Row(ld, k)} ::
              k in s'.tasks ==> Row(ld, k).id == k && Row(ld, k).stepId == s'.tasks[k].stepId
  {
    hide Row;
  }

  lemma CancelOneIs(env: Env, ld: Loaded, w: Work, id: TaskId, reason: string, s': Core)
    requires Open(w.state.core, id) && id in s'.tasks && Row(ld, id).stepId == w.state.core.tasks[id].stepId
    requires var e := CancelEvent(env, w, id, reason);
             EmitAndUpdate(env, ld, w, e.stepId, id, e.payload)
             == Ok(Mutate(After(env, w, e, s'), Update(UpdateRow(Row(ld, id), s'.tasks[id], env.now))))
    ensures CancelOne(env, ld, w, id, reason)
            == Ok(Mutate(After(env, w, CancelEvent(env, w, id, reason), s'),
                         Update(UpdateRow(Row(ld, id), s'.tasks[id], env.now))))
  {
    hide EmitAndUpdate;
  }

  lemma {:induction false} CancelTasksGood(env: Env, ld: Loaded, s: Core, w: Work, list: seq<TaskId>, reason: string)
    requires Revoking(env, ld, s, w)
    ensures CancelTasks(env, ld, w, list, reason).Ok?
    ensures var w' := CancelTasks(env, ld, w, list, reason).value;
            && Revoking(env, ld, s, w')
            && (forall i :: 0 <= i < |list| ==> !Open(w'.state.core, list[i]))
            && (forall k :: Open(w'.state.core, k) ==> Open(w.state.core, k))
  {
    hide Revoking, CancelOne, Open;
    if list != [] {
      var init, id := list[..|list| - 1], list[|list| - 1];
      CancelTasksGood(env, ld, s, w, init, reason);
      var w1 := CancelTasks(env, ld, w, init, reason).value;
      CancelOneGood(env, ld, s, w1, id, reason);
      assert forall i :: 0 <= i < |init| ==> list[i] == init[i];
    }
  }

  /** Once every task is revoked, the run can be unwound. */
  lemma RevokedUnwinds(def: Definition, status: RunStatus, s0: Core, s: Core, s': Core)
    requires ValidDefinition(def) && Inv(def, s0) && Committed(status, s0) && !status.Terminal()
    requires s == s0.(cancelRequested := true) && Revoked(s, s') && NoOpenTask(s')
    ensures Unwinding(s')
  {
    if status.Running? {
      var id := RunningHasForward(def, status, s0) by { hide Inv, Committed, Revoked, ValidDefinition; }
      assert id in s.tasks && !Open(s', id);
      assert s'.tasks[id] != s.tasks[id];
    } else {
      assert AnyLost(s0);
      var x :| x in s0.steps && Lost(s0.steps[x]);
      assert Lost(s.steps[x]);
    }
  }

  lemma CancelWorkFinal(env: Env, ld: Loaded, reason: string)
    requires LoadedOk(env, ld) && !ld.run.status.Terminal()
    ensures CancelWork(env, ld, reason).Ok? && Final(BaseOf(ld), env, CancelWork(env, ld, reason).value)
  {
    hide LoadedOk, Revoking, Good, Unwinding, Final, After, CancelTasks, BeginCompensationOrFinish, Emit;
    var s := ld.state.core.(cancelRequested := true);
    var e := EventOf(env, Begin(ld), "", None, RunCancelRequested(reason));
    var w := After(env, Begin(ld), e, s);
    CancelRequestGood(env, ld, e, s);
    CancelTasksGood(env, ld, s, w, ld.listing, reason);
    var w' := CancelTasks(env, ld, w, ld.listing, reason).value;
    CancelledUnwinds(env, ld, s, w');
    RevokingGood(env, ld, s, w');
    LoadedFiled(env, ld);
    NextAfterOne(BaseOf(ld), env, w');
    BeginFinal(BaseOf(ld), env, w');
  }

  lemma RevokingGood(env: Env, ld: Loaded, s: Core, w: Work)
    requires Revoking(env, ld, s, w)
    ensures Good(BaseOf(ld), env, w)
  {
    hide Good, Revoked, Row;
  }

  lemma LoadedFiled(env: Env, ld: Loaded)
    requires LoadedOk(env, ld)
    ensures Filed(ld.def.steps, ld.def.order)
  {
    hide Inv, Committed, RowsAgree, Fresh;
  }

  lemma CancelRequestGood(env: Env, ld: Loaded, e: Event, s: Core)
    requires LoadedOk(env, ld) && e.payload.RunCancelRequested? && e == EventOf(env, Begin(ld), "", None, e.payload)
    requires s == ld.state.core.(cancelRequested := true)
    ensures Emit(env, Begin(ld), "", None, e.payload) == Ok(After(env, Begin(ld), e, s))
    ensures Revoking(env, ld, s, After(env, Begin(ld), e, s))
  {
    BeginGood(env, ld) by { hide LoadedOk; }
    NextAfterOne(BaseOf(ld), env, Begin(ld)) by { hide LoadedOk, Good; }
    hide LoadedOk, Good, AnyLost;
    RunEventGood(BaseOf(ld), env, Begin(ld), e, s) by { hide Emit, After; }
  }

  lemma CancelledUnwinds(env: Env, ld: Loaded, s: Core, w: Work)
    requires LoadedOk(env, ld) && !ld.run.status.Terminal()
    requires s == ld.state.core.(cancelRequested := true) && Revoking(env, ld, s, w)
    requires forall i :: 0 <= i < |ld.listing| ==> !Open(w.state.core, ld.listing[i])
    ensures Unwinding(w.state.core)
  {
    assert Revoked(s, w.state.core) by { hide Good, LoadedOk, Revoked; }
    forall id ensures !Open(w.state.core, id) {
      if id in w.state.core.tasks {
        hide Inv, Committed, Fresh, ValidDefinition, Revoking, Good, Open;
        assert id in ld.listing;
        var i :| 0 <= i < |ld.listing| && ld.listing[i] == id;
        assert !Open(w.state.core, ld.listing[i]);
      }
    }
    hide Revoking, Revoked, RowsAgree, Fresh, Inv, Committed, ValidDefinition;
    RevokedUnwinds(ld.def, ld.state.run.status, ld.state.core, s, w.state.core);
  }

  // ------------------------------------------------------------------ starting

  /** The first event of a history starts the run. */
  lemma StartedGood(env: Env, def: Definition, input: Json) returns (w: Work)
    requires Fresh(env, map[], 2)
    ensures var started, run := StartedEvent(env, def.name, input), NewRun(env, def.name, input);
            && Replay(def, run, [started]).Ok?
            && w == Work(Replay(def, run, [started]).value, 2, [started], [])
            && Good(Base(def, Initial(def, run), 0, map[]), env, w)
            && w.state.core == InitialCore(def) && w.state.run.status.Running?
  {
    var started, run := StartedEvent(env, def.name, input), NewRun(env, def.name, input);
    var s := Initial(def, run);
    assert [started][..0] == [];
    assert Fold(s, [started]) == Apply(s, started);
    w := Work(Replay(def, run, [started]).value, 2, [started], []);
    InitialInv(def);
    assert LegalFrom(s.core, [started]);
    hide Inv, Legal, Fresh;
  }

  lemma FreshIncomplete(def: Definition, s: Core)
    requires ValidDefinition(def) && Inv(def, s) && s.outputs == map[]
    ensures !AllCompleted(s)
  {
    hide OrderOk;
    assert def.order[0] in def.order;
    assert StepOk(def, s, def.order[0]);
  }

  /** A new run: its root steps are scheduled and it is committed as running. */
  lemma StartWorkFinal(env: Env, def: Definition, input: Json)
    requires ValidDefinition(def) && Fresh(env, map[], 2)
    ensures StartWork(env, def, input).Ok?
    ensures var b := Base(def, Initial(def, NewRun(env, def.name, NormalizeJson(input))), 0, map[]);
            var w := StartWork(env, def, input).value;
            Final(b, env, w) && w.state.run.status.Running?
  {
    var run := NewRun(env, def.name, NormalizeJson(input));
    var b := Base(def, Initial(def, run), 0, map[]);
    var w := StartedGood(env, def, NormalizeJson(input)) by { hide Fresh, ValidDefinition; }
    assert !AnyLost(w.state.core);
    ReadyStepsSettled(b, env, w) by { hide Good, AnyLost, Fresh; }
    var w' := ScheduleForwardReady(env, w, def.order).value;
    FreshIncomplete(def, w'.state.core) by { hide Good, Fresh, AnyLost, AllCompleted, ReadyScheduled,
                                            AllForwardCompleted; }
    hide Good, Fresh, AnyLost, AllCompleted, ReadyScheduled, AllForwardCompleted, Committed, ScheduleForwardReady;
    RunningSettles(w'.state.core, w'.state.run.status);
  }
}
