/** Workflow definitions: steps, retry policies and the builder (pkg/workflow/workflow.go). */
module Workflow {
  import opened Prelude

  type StepId = string

  const MILLISECOND := 1_000_000
  const SECOND := 1_000_000_000

  datatype StepKind = Activity | Timer | Unsupported(name: string)

  datatype RetryPolicy = RetryPolicy(maxAttempts: int, initialBackoff: int, maxBackoff: int) {
    function Normalize(): (r: RetryPolicy)
      ensures r.maxAttempts >= 1 && r.initialBackoff > 0 && r.maxBackoff > 0
    {
      var attempts := if maxAttempts <= 0 then 1 else maxAttempts;
      var initial := if initialBackoff <= 0 then 250 * MILLISECOND else initialBackoff;
      var maximum := if maxBackoff <= 0 || maxBackoff < initial then 5 * SECOND else maxBackoff;
      RetryPolicy(attempts, initial, maximum)
    }
  }

  /** A declared policy is kept as it is; a value that cannot be used gives way to 1 attempt, 250 ms or 5 s. */
  lemma NormalizeKeeps(policy: RetryPolicy)
    ensures policy.maxAttempts >= 1 && 0 < policy.initialBackoff <= policy.maxBackoff ==> policy.Normalize() == policy
    ensures var r := policy.Normalize();
            && r.maxAttempts == (if policy.maxAttempts >= 1 then policy.maxAttempts else 1)
            && r.initialBackoff == (if policy.initialBackoff > 0 then policy.initialBackoff else 250_000_000)
            && (policy.maxBackoff > 0 && policy.maxBackoff >= r.initialBackoff ==> r.maxBackoff == policy.maxBackoff)
            && (policy.maxBackoff <= 0 || policy.maxBackoff < r.initialBackoff ==> r.maxBackoff == 5_000_000_000)
    ensures policy.Normalize().Normalize() == policy.Normalize()
  {
  }

  datatype Step = Step(
    id: StepId,
    kind: StepKind,
    activity: string,
    queue: string,
    delay: int,
    dependencies: seq<StepId>,
    retry: RetryPolicy,
    compensation: string,
    compensationQueue: string)

  datatype Definition = Definition(name: string, steps: map<StepId, Step>, order: seq<StepId>)

  datatype BuildError =
    | NameRequired
    | NoSteps
    | StepIdRequired
    | MissingActivity(id: StepId)
    | NonPositiveDelay(id: StepId)
    | UnsupportedKind(id: StepId)
    | SelfDependency(id: StepId)
    | UnknownDependency(id: StepId, dependency: StepId)
    | Cycle(id: StepId)

  /** `order` lists every step once, and each step is filed under its own id. */
  ghost predicate Filed(steps: map<StepId, Step>, order: seq<StepId>) {
    && NoDup(order)
    && (forall id :: id in order <==> id in steps)
    && (forall id :: id in steps ==> steps[id].id == id)
  }

  ghost predicate DependenciesKnown(steps: map<StepId, Step>) {
    forall id, k :: id in steps && 0 <= k < |steps[id].dependencies| ==> steps[id].dependencies[k] in steps
  }

  /** What a step must be, apart from its dependencies. */
  predicate KindSound(step: Step) {
    && step.id != "" && !step.kind.Unsupported?
    && (step.kind.Activity? ==> step.activity != "")
    && (step.kind.Timer? ==> step.delay > 0)
  }

  /** The first `n` dependencies are other steps. */
  predicate DependenciesSound(steps: map<StepId, Step>, step: Step, n: nat)
    requires n <= |step.dependencies|
  {
    forall k :: 0 <= k < n ==> step.dependencies[k] != step.id && step.dependencies[k] in steps
  }

  /** What a step must be for a workflow to be built. */
  predicate Sound(steps: map<StepId, Step>, step: Step) {
    KindSound(step) && DependenciesSound(steps, step, |step.dependencies|)
  }

  /** `error` names the first fault that the step has. */
  predicate Faulty(steps: map<StepId, Step>, step: Step, error: BuildError) {
    match error
    case StepIdRequired => step.id == ""
    case MissingActivity(id) => id == step.id != "" && step.kind.Activity? && step.activity == ""
    case NonPositiveDelay(id) => id == step.id != "" && step.kind.Timer? && step.delay <= 0
    case UnsupportedKind(id) => id == step.id != "" && step.kind.Unsupported?
    case SelfDependency(id) =>
      && id == step.id && KindSound(step)
      && exists k :: 0 <= k < |step.dependencies| && step.dependencies[k] == id && DependenciesSound(steps, step, k)
    case UnknownDependency(id, y) =>
      && id == step.id && KindSound(step) && y !in steps && y != id
      && exists k :: 0 <= k < |step.dependencies| && step.dependencies[k] == y && DependenciesSound(steps, step, k)
    case _ => false
  }

  ghost predicate AllSound(steps: map<StepId, Step>) {
    forall id :: id in steps ==> Sound(steps, steps[id])
  }

  /** `error` is the fault of the first listed step that is not sound. */
  ghost predicate FirstFaulty(steps: map<StepId, Step>, order: seq<StepId>, error: BuildError) {
    exists i :: && 0 <= i < |order| && order[i] in steps && Faulty(steps, steps[order[i]], error)
                && forall j :: 0 <= j < i ==> order[j] in steps && Sound(steps, steps[order[j]])
  }

  // ------------------------------------------------------------------ the dependency graph

  ghost predicate DependsOn(steps: map<StepId, Step>, x: StepId, y: StepId) {
    x in steps && y in steps[x].dependencies
  }

  ghost predicate Walk(steps: map<StepId, Step>, walk: seq<StepId>) {
    forall i :: 0 <= i < |walk| - 1 ==> DependsOn(steps, walk[i], walk[i + 1])
  }

  /** A walk along dependencies that returns to where it started. */
  ghost predicate HasCycle(steps: map<StepId, Step>) {
    exists walk: seq<StepId> :: |walk| >= 2 && walk[0] == walk[|walk| - 1] && Walk(steps, walk)
  }

  /** Every dependency of a listed step is listed before it. */
  ghost predicate DependenciesFirst(steps: map<StepId, Step>, list: seq<StepId>) {
    forall i, y :: 0 <= i < |list| && DependsOn(steps, list[i], y) ==> y in list[..i]
  }

  /** A rank for every step that each dependency strictly lowers: the position in `ranking`. */
  ghost predicate Ranks(steps: map<StepId, Step>, ranking: seq<StepId>) {
    && NoDup(ranking)
    && (forall id :: id in ranking <==> id in steps)
    && DependenciesFirst(steps, ranking)
  }

  lemma RankedWalkDescends(steps: map<StepId, Step>, ranking: seq<StepId>, walk: seq<StepId>)
    requires Ranks(steps, ranking) && Walk(steps, walk) && |walk| >= 2
    requires walk[0] in steps
    ensures walk[|walk| - 1] in steps
    ensures IndexOf(ranking, walk[|walk| - 1]) < IndexOf(ranking, walk[0])
  {
    var i := IndexOf(ranking, walk[0]);
    assert DependsOn(steps, walk[0], walk[1]);
    assert walk[1] in ranking[..i];
    var j :| 0 <= j < i && ranking[j] == walk[1];
    IndexOfAt(ranking, j);
    if |walk| > 2 {
      var rest := walk[1..];
      assert forall k {:trigger rest[k]} :: 0 <= k < |rest| ==> rest[k] == walk[k + 1];
      RankedWalkDescends(steps, ranking, rest);
    }
  }

  /** A ranked graph has no cycle. */
  lemma RankedIsAcyclic(steps: map<StepId, Step>, ranking: seq<StepId>)
    requires Ranks(steps, ranking)
    ensures !HasCycle(steps)
  {
    if HasCycle(steps) {
      var walk: seq<StepId> :| |walk| >= 2 && walk[0] == walk[|walk| - 1] && Walk(steps, walk);
      assert DependsOn(steps, walk[0], walk[1]);
      RankedWalkDescends(steps, ranking, walk);
    }
  }

  // ------------------------------------------------------------------ validation

  /** The fault of one step, in the order in which validation looks for them. */
  function StepFault(steps: map<StepId, Step>, step: Step): Option<BuildError> {
    if step.id == "" then Some(StepIdRequired)
    else if step.kind.Activity? && step.activity == "" then Some(MissingActivity(step.id))
    else if step.kind.Timer? && step.delay <= 0 then Some(NonPositiveDelay(step.id))
    else if step.kind.Unsupported? then Some(UnsupportedKind(step.id))
    else DependencyFault(steps, step, 0)
  }

  function DependencyFault(steps: map<StepId, Step>, step: Step, from: nat): (fault: Option<BuildError>)
    requires from <= |step.dependencies|
    ensures fault.None? <==>
            forall k :: from <= k < |step.dependencies| ==>
                          step.dependencies[k] != step.id && step.dependencies[k] in steps
    decreases |step.dependencies| - from
  {
    if from == |step.dependencies| then None
    else if step.dependencies[from] == step.id then Some(SelfDependency(step.id))
    else if step.dependencies[from] !in steps then Some(UnknownDependency(step.id, step.dependencies[from]))
    else DependencyFault(steps, step, from + 1)
  }

  /** A fault is found exactly in a step that is not sound, and it is the first that the step has. */
  lemma FaultIsFound(steps: map<StepId, Step>, step: Step)
    ensures StepFault(steps, step).None? <==> Sound(steps, step)
    ensures StepFault(steps, step).Some? ==> Faulty(steps, step, StepFault(steps, step).value)
  {
    if KindSound(step) { DependencyFaulty(steps, step, 0); }
  }

  lemma {:induction false} DependencyFaulty(steps: map<StepId, Step>, step: Step, from: nat)
    requires from <= |step.dependencies| && KindSound(step) && DependenciesSound(steps, step, from)
    ensures DependencyFault(steps, step, from).Some? ==> Faulty(steps, step, DependencyFault(steps, step, from).value)
    decreases |step.dependencies| - from
  {
    if from < |step.dependencies| && DependenciesSound(steps, step, from + 1) {
      DependencyFaulty(steps, step, from + 1);
    }
  }

  /** Why a graph that has no local fault is turned down: a step that lies on a cycle. */
  ghost predicate OnCycle(steps: map<StepId, Step>, id: StepId) {
    exists walk: seq<StepId> :: |walk| >= 2 && walk[0] == id == walk[|walk| - 1] && Walk(steps, walk)
  }

  // ------------------------------------------------------------------ the three-colour search

  /** 1 is on the current path, 2 is finished, and an absent step is unvisited. */
  type Coloring = c: map<StepId, int> | forall id :: id in c ==> c[id] == 1 || c[id] == 2

  /** The path holds the steps of colour 1, each depending on the next; the ranking those of colour 2. */
  ghost predicate Searching(steps: map<StepId, Step>, color: Coloring, path: seq<StepId>, finished: seq<StepId>) {
    && color.Keys <= steps.Keys
    && NoDup(path) && Walk(steps, path)
    && (forall id :: id in path <==> id in color && color[id] == 1)
    && NoDup(finished) && DependenciesFirst(steps, finished)
    && (forall id :: id in finished <==> id in color && color[id] == 2)
  }

  lemma BackEdgeClosesCycle(steps: map<StepId, Step>, path: seq<StepId>, id: StepId)
    requires Walk(steps, path) && id in path
    requires DependsOn(steps, path[|path| - 1], id)
    ensures OnCycle(steps, id)
  {
    var k :| 0 <= k < |path| && path[k] == id;
    var walk := path[k..] + [id];
    forall i | 0 <= i < |walk| - 1
      ensures DependsOn(steps, walk[i], walk[i + 1])
    {
      if i < |walk| - 2 {
        assert walk[i] == path[k + i] && walk[i + 1] == path[k + i + 1];
      }
    }
    assert Walk(steps, walk) && walk[0] == id == walk[|walk| - 1];
  }

  lemma EnterKeepsSearching(steps: map<StepId, Step>, color: Coloring, path: seq<StepId>, finished: seq<StepId>,
                            id: StepId)
    requires Searching(steps, color, path, finished) && id in steps && id !in color
    requires path != [] ==> DependsOn(steps, path[|path| - 1], id)
    ensures Searching(steps, color[id := 1], path + [id], finished)
  {
  }

  lemma LeaveKeepsSearching(steps: map<StepId, Step>, color: Coloring, path: seq<StepId>, finished: seq<StepId>,
                            id: StepId)
    requires Searching(steps, color, path + [id], finished)
    requires forall y :: DependsOn(steps, id, y) ==> y in finished
    ensures Searching(steps, color[id := 2], path, finished + [id])
  {
    var longer, ranked := path + [id], finished + [id];
    assert longer[|path|] == id && color[id] == 1;
    assert NoDup(path) by {
      assert forall i {:trigger path[i]} :: 0 <= i < |path| ==> path[i] == longer[i];
    }
    assert Walk(steps, path) by {
      assert forall i {:trigger path[i]} :: 0 <= i < |path| ==> path[i] == longer[i];
    }
    forall x ensures x in path <==> x in color && color[x] == 1 && x != id {
      if x in path {
        var i :| 0 <= i < |path| && path[i] == x;
        assert longer[i] == x;
      }
    }
    assert NoDup(ranked);
    forall i, y | 0 <= i < |ranked| && DependsOn(steps, ranked[i], y)
      ensures y in ranked[..i]
    {
      assert ranked[..i] == finished[..i];
    }
  }

  class CycleSearch {
    const steps: map<StepId, Step>
    var color: Coloring
    ghost var path: seq<StepId>
    ghost var finished: seq<StepId>

    ghost predicate Valid()
      reads this
    {
      DependenciesKnown(steps) && Searching(steps, color, path, finished)
    }

    constructor (steps: map<StepId, Step>)
      requires DependenciesKnown(steps)
      ensures Valid() && this.steps == steps && path == [] && finished == []
    {
      this.steps := steps;
      color := map[];
      path, finished := [], [];
    }

    /** Visits `id`, on which the end of the current path depends. */
    method Visit(id: StepId) returns (err: Option<BuildError>)
      requires Valid() && id in steps
      requires path != [] ==> DependsOn(steps, path[|path| - 1], id)
      modifies this
      ensures err.None? ==> Valid() && path == old(path) && id in finished
      ensures err.None? ==> old(color).Keys <= color.Keys && forall y :: y in old(finished) ==> y in finished
      ensures err.Some? ==> exists x :: err == Some(Cycle(x)) && OnCycle(steps, x)
      decreases steps.Keys - color.Keys, 0
    {
      var c := if id in color then color[id] else 0;
      if c == 1 {
        BackEdgeClosesCycle(steps, path, id);
        return Some(Cycle(id));
      }
      if c == 2 {
        return None;
      }
      EnterKeepsSearching(steps, color, path, finished, id);
      color := color[id := 1];
      path := path + [id];
      err := VisitDependencies(id);
      if err.Some? {
        return;
      }
      LeaveKeepsSearching(steps, color, old(path), finished, id);
      color := color[id := 2];
      path := old(path);
      finished := finished + [id];
    }

    /** The loop over the dependencies of the step at the end of the path. */
    method VisitDependencies(id: StepId) returns (err: Option<BuildError>)
      requires Valid() && id in steps && path != [] && path[|path| - 1] == id
      modifies this
      ensures err.None? ==> Valid() && path == old(path)
      ensures err.None? ==> old(color).Keys <= color.Keys && forall y :: y in old(finished) ==> y in finished
      ensures err.None? ==> forall y :: DependsOn(steps, id, y) ==> y in finished
      ensures err.Some? ==> exists x :: err == Some(Cycle(x)) && OnCycle(steps, x)
      decreases steps.Keys - color.Keys, 1
    {
      hide Searching;
      var dependencies := steps[id].dependencies;
      var i := 0;
      while i < |dependencies|
        invariant 0 <= i <= |dependencies|
        invariant Valid() && path == old(path)
        invariant old(color).Keys <= color.Keys
        invariant forall y :: y in old(finished) ==> y in finished
        invariant forall k :: 0 <= k < i ==> dependencies[k] in finished
      {
        assert DependsOn(steps, id, dependencies[i]);
        var e := Visit(dependencies[i]);
        if e.Some? {
          return e;
        }
        i := i + 1;
      }
      return None;
    }
  }

  lemma ListedSound(steps: map<StepId, Step>, order: seq<StepId>)
    requires Filed(steps, order) && forall j :: 0 <= j < |order| ==> Sound(steps, steps[order[j]])
    ensures AllSound(steps) && DependenciesKnown(steps)
  {
    forall id | id in steps ensures Sound(steps, steps[id]) {
      var k :| 0 <= k < |order| && order[k] == id;
    }
  }

  lemma ListedFaulty(steps: map<StepId, Step>, order: seq<StepId>, i: nat, error: BuildError)
    requires Filed(steps, order) && i < |order| && forall j :: 0 <= j < i ==> Sound(steps, steps[order[j]])
    requires Faulty(steps, steps[order[i]], error)
    ensures FirstFaulty(steps, order, error) && !AllSound(steps)
  {
    assert order[i] in steps;
  }

  /** The loop of local checks. */
  method CheckSteps(steps: map<StepId, Step>, order: seq<StepId>) returns (err: Option<BuildError>)
    requires Filed(steps, order)
    ensures err.None? ==> AllSound(steps) && DependenciesKnown(steps)
    ensures err.Some? ==> !AllSound(steps) && FirstFaulty(steps, order, err.value)
  {
    hide Sound, Faulty, FirstFaulty, AllSound, DependenciesKnown;
    var i := 0;
    while i < |order|
      invariant 0 <= i <= |order|
      invariant forall j :: 0 <= j < i ==> Sound(steps, steps[order[j]])
    {
      var fault := CheckStep(steps, steps[order[i]]);
      if fault.Some? {
        ListedFaulty(steps, order, i, fault.value);
        return fault;
      }
      i := i + 1;
    }
    ListedSound(steps, order);
    return None;
  }

  /** Once every step is finished, the order in which they were finished is a ranking. */
  lemma FinishedRanks(steps: map<StepId, Step>, order: seq<StepId>, color: Coloring, path: seq<StepId>,
                      finished: seq<StepId>)
    requires Filed(steps, order) && Searching(steps, color, path, finished)
    requires forall k :: 0 <= k < |order| ==> order[k] in finished
    ensures Ranks(steps, finished)
  {
    forall id | id in steps ensures id in finished {
      assert id in order;
    }
  }

  /** The loop of visits. */
  method SearchCycles(steps: map<StepId, Step>, order: seq<StepId>)
    returns (err: Option<BuildError>, ghost ranking: seq<StepId>)
    requires Filed(steps, order) && DependenciesKnown(steps)
    ensures err.None? ==> Ranks(steps, ranking)
    ensures err.Some? ==> exists x :: err == Some(Cycle(x)) && OnCycle(steps, x)
  {
    hide Searching, Ranks, Walk;
    var search := new CycleSearch(steps);
    var i := 0;
    while i < |order|
      invariant 0 <= i <= |order|
      invariant search.Valid() && search.steps == steps && search.path == []
      invariant forall k :: 0 <= k < i ==> order[k] in search.finished
    {
      var e := search.Visit(order[i]);
      if e.Some? {
        return e, [];
      }
      i := i + 1;
    }
    ranking := search.finished;
    FinishedRanks(steps, order, search.color, search.path, ranking);
    return None, ranking;
  }

  /** Accepts exactly the graphs without a local fault and without a dependency cycle. */
  method ValidateSteps(steps: map<StepId, Step>, order: seq<StepId>)
    returns (err: Option<BuildError>, ghost ranking: seq<StepId>)
    requires Filed(steps, order)
    ensures err.None? <==> AllSound(steps) && !HasCycle(steps)
    ensures !AllSound(steps) ==> err.Some? && FirstFaulty(steps, order, err.value)
    ensures AllSound(steps) && err.Some? ==> exists x :: err == Some(Cycle(x)) && OnCycle(steps, x)
    ensures err.None? ==> Ranks(steps, ranking) && DependenciesKnown(steps)
  {
    hide AllSound, FirstFaulty, DependenciesKnown, Ranks;
    err := CheckSteps(steps, order);
    if err.Some? {
      return err, [];
    }
    err, ranking := SearchCycles(steps, order);
    if err.None? { RankedIsAcyclic(steps, ranking); }
  }

  /** Finds nothing exactly in a sound step, and otherwise a fault that the step has. */
  method CheckStep(steps: map<StepId, Step>, step: Step) returns (fault: Option<BuildError>)
    ensures fault == StepFault(steps, step)
    ensures fault.None? <==> Sound(steps, step)
    ensures fault.Some? ==> Faulty(steps, step, fault.value)
  {
    FaultIsFound(steps, step);
    if step.id == "" {
      return Some(StepIdRequired);
    }
    match step.kind {
      case Activity =>
        if step.activity == "" {
          return Some(MissingActivity(step.id));
        }
      case Timer =>
        if step.delay <= 0 {
          return Some(NonPositiveDelay(step.id));
        }
      case Unsupported(_) =>
        return Some(UnsupportedKind(step.id));
    }
    var k := 0;
    while k < |step.dependencies|
      invariant 0 <= k <= |step.dependencies|
      invariant DependencyFault(steps, step, 0) == DependencyFault(steps, step, k)
    {
      if step.dependencies[k] == step.id {
        return Some(SelfDependency(step.id));
      }
      if step.dependencies[k] !in steps {
        return Some(UnknownDependency(step.id, step.dependencies[k]));
      }
      k := k + 1;
    }
    return None;
  }

  // ------------------------------------------------------------------ the builder

  /** Nothing about the policy is left to be replaced. */
  predicate IsNormalized(policy: RetryPolicy) {
    policy.maxAttempts >= 1 && policy.initialBackoff > 0 && policy.maxBackoff > 0 && policy.Normalize() == policy
  }

  /** What every registered definition satisfies: it came out of `Build`. */
  ghost predicate ValidDefinition(def: Definition) {
    && Filed(def.steps, def.order)
    && DependenciesKnown(def.steps)
    && |def.order| > 0
    && (exists ranking: seq<StepId> :: Ranks(def.steps, ranking))
    && AllSound(def.steps)
    && (forall id :: id in def.steps ==> IsNormalized(def.steps[id].retry))
  }

  lemma PutKeepsFiled(steps: map<StepId, Step>, order: seq<StepId>, step: Step)
    requires Filed(steps, order)
    ensures Filed(steps[step.id := step], if step.id in steps then order else order + [step.id])
  {
  }

  class Builder {
    const name: string
    var steps: map<StepId, Step>
    var order: seq<StepId>

    ghost predicate Valid()
      reads this
    {
      && Filed(steps, order)
      && (forall id :: id in steps ==> IsNormalized(steps[id].retry))
    }

    constructor (name: string)
      ensures Valid() && this.name == name && steps == map[] && order == []
    {
      this.name := name;
      steps := map[];
      order := [];
    }

    /** Adds a step, or replaces the step of that id in its old place. */
    method Put(step: Step)
      requires Valid()
      modifies this
      ensures Valid()
      ensures steps.Keys == old(steps).Keys + {step.id}
      ensures forall id :: id in old(steps) && id != step.id ==> steps[id] == old(steps)[id]
      ensures steps[step.id] == step.(queue := steps[step.id].queue, retry := step.retry.Normalize())
      ensures steps[step.id].queue == if step.queue == "" && step.kind.Activity? then "default" else step.queue
      ensures order == if step.id in old(steps) then old(order) else old(order) + [step.id]
    {
      hide Filed, RetryPolicy.Normalize;
      if step.id !in steps {
        order := order + [step.id];
      }
      var filed := step;
      if filed.queue == "" && filed.kind.Activity? {
        filed := filed.(queue := "default");
      }
      filed := filed.(retry := filed.retry.Normalize());
      PutKeepsFiled(steps, old(order), filed);
      NormalizeKeeps(step.retry);
      steps := steps[step.id := filed];
    }

    /** Succeeds exactly on a named, non-empty and acyclic workflow of sound steps, and otherwise reports the first
        fault there is. */
    method Build() returns (result: Result<Definition, BuildError>)
      requires Valid()
      ensures result.Ok? <==> name != "" && steps != map[] && AllSound(steps) && !HasCycle(steps)
      ensures result.Ok? ==> result.value == Definition(name, steps, order) && ValidDefinition(result.value)
      ensures result == Err(NameRequired) <==> name == ""
      ensures result == Err(NoSteps) <==> name != "" && steps == map[]
      ensures name != "" && steps != map[] && !AllSound(steps) ==>
                result.Err? && FirstFaulty(steps, order, result.error)
      ensures name != "" && steps != map[] && AllSound(steps) && result.Err? ==>
                result.error.Cycle? && OnCycle(steps, result.error.id)
    {
      if name == "" {
        return Err(NameRequired);
      }
      if |steps| == 0 {
        return Err(NoSteps);
      }
      var err, ranking := ValidateSteps(steps, order);
      if err.Some? {
        return Err(err.value);
      }
      RankedIsAcyclic(steps, ranking);
      assert |order| > 0 by {
        var id :| id in steps;
        assert id in order;
      }
      return Ok(Definition(name, steps, order));
    }
  }

  // ------------------------------------------------------------------ the registry

  type Definitions = map<string, Definition>

  /** Every definition is filed under its name and came out of a builder. */
  ghost predicate Registered(defs: Definitions) {
    forall name {:trigger defs[name]} :: name in defs ==> ValidDefinition(defs[name]) && defs[name].name == name
  }

  class Registry {
    var definitions: Definitions

    constructor ()
      ensures Registered(definitions) && definitions == map[]
    {
      definitions := map[];
    }

    /** Files a definition, unless its name is taken; a definition never changes once it is filed. */
    method Register(def: Definition) returns (accepted: bool)
      requires Registered(definitions) && ValidDefinition(def)
      modifies this
      ensures Registered(definitions)
      ensures accepted <==> def.name !in old(definitions)
      ensures definitions == if accepted then old(definitions)[def.name := def] else old(definitions)
    {
      hide ValidDefinition;
      if def.name in definitions {
        return false;
      }
      definitions := definitions[def.name := def];
      return true;
    }
  }
}
