/** Histories in which every event was legal when it was appended, and what replaying them gives. */
module Chronicle {
  import opened Prelude
  import opened Workflow
  import opened History
  import opened Engine
  import opened Reducer
  import opened Invariant

  /** Every event is legal in the state reached from `s` through the events before it. */
  predicate LegalFrom(s: Core, events: seq<Event>) {
    |events| == 0 ||
    (var init := events[..|events| - 1];
     LegalFrom(s, init) && FoldCore(s, init).Ok? && Legal(FoldCore(s, init).value, events[|events| - 1]))
  }

  lemma LegalFromSnoc(s: Core, events: seq<Event>, e: Event)
    requires LegalFrom(s, events) && FoldCore(s, events).Ok? && Legal(FoldCore(s, events).value, e)
    ensures LegalFrom(s, events + [e])
  {
    hide Legal, FoldCore;
    assert (events + [e])[..|events|] == events;
  }

  /** Replay never fails on legal events, and keeps the invariant. */
  lemma {:induction false} LegalFromKeepsInv(def: Definition, s: Core, events: seq<Event>)
    requires Inv(def, s) && LegalFrom(s, events)
    ensures FoldCore(s, events).Ok? && Inv(def, FoldCore(s, events).value)
  {
    hide Inv, Legal, ApplyCore;
    if events != [] {
      var init := events[..|events| - 1];
      LegalFromKeepsInv(def, s, init);
      LegalKeepsInv(def, FoldCore(s, init).value, events[|events| - 1]);
    }
  }

  lemma {:induction false} LegalFromConcat(s: Core, first: seq<Event>, second: seq<Event>)
    requires LegalFrom(s, first) && FoldCore(s, first).Ok? && LegalFrom(FoldCore(s, first).value, second)
    ensures LegalFrom(s, first + second)
  {
    hide Legal, ApplyCore;
    if second == [] {
      assert first + second == first;
    } else {
      var last := |second| - 1;
      LegalFromConcat(s, first, second[..last]);
      FoldCoreConcat(s, first, second[..last]);
      assert first + second == (first + second[..last]) + [second[last]];
      LegalFromSnoc(s, first + second[..last], second[last]);
    }
  }

  lemma {:induction false} LegalFromPrefix(s: Core, events: seq<Event>, n: nat)
    requires LegalFrom(s, events) && n <= |events|
    ensures LegalFrom(s, events[..n])
  {
    hide Legal, FoldCore;
    if n == |events| {
      assert events[..n] == events;
    } else {
      var init := events[..|events| - 1];
      LegalFromPrefix(s, init, n);
      assert init[..n] == events[..n];
    }
  }

  /** Events that take a task up or end an attempt at it. */
  predicate IsWork(p: Payload) {
    p.TaskLeased? || p.TaskCompleted? || p.TaskFailed? || p.TaskCancelled? || p.TimerFired?
  }

  predicate HasWork(events: seq<Event>) {
    exists k :: 0 <= k < |events| && IsWork(events[k].payload)
  }

  lemma WorkStays(events: seq<Event>, more: seq<Event>)
    requires events <= more && HasWork(events)
    ensures HasWork(more)
  {
    var k :| 0 <= k < |events| && IsWork(events[k].payload);
    assert more[k] == events[k];
  }
}
