/**
The compute orchestrator as a state machine.

Every function below is the effect of one critical section of the orchestrator (or of a
helper that runs inside one), as a function from the scheduler's state before to its state
after.  What the source leaves to an analytic, a worker thread or the store (satisfaction
probes, dispatch gates, step results, planned graphs) is an argument.
*/
module Scheduler {
  import opened Prelude

  // --- identities -------------------------------------------------------------------------

  /** The canonical key of one cacheable work unit.  Scheduling only compares keys. */
  type ComputeScope = int

  /** A node run is identified by its execution generation, which is never reused. */
  type RunId = int
  type HandleId = int
  type Bundle = int

  datatype PriorityBand = StreamAttached | InteractiveEnsure | Background {
    function Rank(): nat {
      match this
      case StreamAttached => 0
      case InteractiveEnsure => 1
      case Background => 2
    }
  }

  /** `EmptyWire` is the literal empty result the source stores when a step returns none. */
  datatype Wire = EmptyWire | Payload(id: int)

  /** An exception object: the run whose step, persist or abort raised it, and whether it is
      the intentional-cancel error class. */
  datatype Failure = Failure(origin: RunId, isAbort: bool)

  // --- node runs --------------------------------------------------------------------------

  datatype NodeState = WaitingDeps | Parked | Ready | Running | Complete | Failed

  datatype NodeRun = NodeRun(
    scope: ComputeScope,
    dependencyScopes: seq<ComputeScope>,
    state: NodeState,
    profileStepIndex: nat,
    stepIndex: nat,
    priorityBand: PriorityBand,
    generationAtSubmit: Option<int>,
    resultWire: Option<Wire>,
    error: Option<Failure>,
    waiters: seq<HandleId>,
    bundle: Option<Bundle>,
    executionSealed: bool,
    // Not a field of the source: set while the run waits for an external force-fresh wake
    // that the source deliberately does not schedule.
    awaitsExternalWake: bool)
  {
    predicate IsTerminal() { state.Complete? || state.Failed? }
    predicate BlocksReadinessRefresh() { !state.WaitingDeps? && !state.Ready? }
    predicate AbortFailed() { state.Failed? && error.Some? && error.value.isAbort }
  }

  /** A caller attached to a run that was not terminal; `error` is what it will be given. */
  datatype Handle = Handle(run: RunId, error: Option<Failure>)

  // --- work that outlives a critical section ------------------------------------------------

  datatype Recovery = Recovery(dependencyScope: ComputeScope, forceFresh: bool, stepKind: Option<string>)

  /** What is still to happen to a run that is in flight. */
  datatype Task =
    | InlineBuild                           // job wire of an inline step is being built
    | InlineRun                             // sealed inline step is executing
    | PoolFlush                             // pool step is to be handed to the pool
    | PoolWork                              // pool step is queued or executing in the pool
    | SoftWait                              // queued soft demotion
    | Defer(recovery: Recovery)             // queued demotion onto a dependency
    | PersistQueued(thenContinue: bool)     // queued persist, not yet checked
    | PersistCalling(thenContinue: bool)    // persist is executing outside the lock
    | PersistReturned(thenContinue: bool)   // persist has returned normally

  /** Post-lock callbacks that are not bound to one run. */
  datatype Callback =
    | DispatchReady
    | DependencyTerminal(completed: ComputeScope)
    | ForceFresh(scope: ComputeScope, band: PriorityBand, stepKind: Option<string>, bundle: Option<Bundle>)

  // --- oracles ------------------------------------------------------------------------------

  datatype StepSpec = StepSpec(stepKind: string, isInline: bool)

  datatype Config = Config(profile: ComputeScope -> seq<StepSpec>, rank: ComputeScope -> nat, hasPool: bool)
  {
    function Steps(scope: ComputeScope): seq<StepSpec> { profile(scope) }
  }

  /** Answers given to one dispatch pass.  The natural number counts the nodes the pass has
      already begun or short-circuited, so a stateful gate may answer differently each round. */
  datatype DispatchOracle = DispatchOracle(
    admit: (ComputeScope, nat) -> bool,
    satisfied: (ComputeScope, nat) -> bool,
    hydrated: (ComputeScope, nat) -> Option<Wire>)

  datatype Outcome = Continue | Persist | Done | Park | WaitDeps
  datatype StepResult = StepResult(
    outcome: Outcome, payload: Option<Wire>, persistThenContinue: bool, waitRecovery: Option<Recovery>)

  datatype PlannedNode = PlannedNode(scope: ComputeScope, dependencyScopes: seq<ComputeScope>)

  datatype Request = Request(
    scope: ComputeScope, stepKind: Option<string>, band: PriorityBand, forceFresh: bool, bundle: Option<Bundle>)

  /** What planning a request returned, and which planned scopes the persistence policy
      reported satisfied while they were registered. */
  datatype Plan = Plan(nodes: seq<PlannedNode>, satisfied: set<ComputeScope>)

  // --- scheduler state ----------------------------------------------------------------------

  datatype Scheduler = Scheduler(
    runs: map<RunId, NodeRun>,            // every run ever created, by identity
    nodes: map<ComputeScope, RunId>,      // the node table
    order: seq<ComputeScope>,             // its insertion order, in which it is iterated
    readyQueue: seq<ComputeScope>,
    callbacks: multiset<Callback>,
    tasks: map<RunId, Task>,
    handles: map<HandleId, Handle>,
    nextRun: RunId,
    nextHandle: HandleId,
    epochs: map<ComputeScope, int>,       // durable invalidation generations (environment)
    durable: set<ComputeScope>,           // scopes whose artifact is stored (environment)
    faulted: bool)                        // a critical section was left by an internal error
  {
    predicate Has(scope: ComputeScope) { scope in nodes && nodes[scope] in runs }
    function Node(scope: ComputeScope): NodeRun requires Has(scope) { runs[nodes[scope]] }
    predicate IsReady(scope: ComputeScope) { Has(scope) && Node(scope).state.Ready? }
    predicate CompleteAt(scope: ComputeScope) { Has(scope) && Node(scope).state.Complete? }
    predicate AbortFailedAt(scope: ComputeScope) { Has(scope) && Node(scope).AbortFailed() }
    /** The scope's node failed, and not by an intentional abort. */
    predicate HardFailedAt(scope: ComputeScope) {
      Has(scope) && Node(scope).state.Failed? && Node(scope).error.Some? && !Node(scope).error.value.isAbort
    }
    predicate Running(g: RunId) { g in runs && runs[g].state.Running? }
    predicate DepsComplete(run: NodeRun) { forall d :: d in run.dependencyScopes ==> CompleteAt(d) }
    function Epoch(scope: ComputeScope): int { if scope in epochs then epochs[scope] else 0 }
    predicate Stale(run: NodeRun) {
      run.generationAtSubmit.Some? && Epoch(run.scope) != run.generationAtSubmit.value
    }
    predicate WirelessDependency(run: NodeRun) {
      exists d :: d in run.dependencyScopes && (!Has(d) || Node(d).resultWire.None?)
    }
  }

  const INITIAL := Scheduler(map[], map[], [], [], multiset{}, map[], map[], 0, 0, map[], {}, false)

  function SetRun(s: Scheduler, g: RunId, run: NodeRun): Scheduler { s.(runs := s.runs[g := run]) }
  function Schedule(s: Scheduler, cb: Callback): Scheduler { s.(callbacks := s.callbacks + multiset{cb}) }
  function Consume(s: Scheduler, cb: Callback): Scheduler { s.(callbacks := s.callbacks - multiset{cb}) }
  function Enqueue(s: Scheduler, scope: ComputeScope): Scheduler {
    if scope in s.readyQueue then s else s.(readyQueue := s.readyQueue + [scope])
  }
  function Dequeue(s: Scheduler, scope: ComputeScope): Scheduler {
    s.(readyQueue := Without(s.readyQueue, scope))
  }
  function DropTask(s: Scheduler, g: RunId): Scheduler { s.(tasks := s.tasks - {g}) }
  function SetTask(s: Scheduler, g: RunId, task: Task): Scheduler { s.(tasks := s.tasks[g := task]) }

  // --- settling -----------------------------------------------------------------------------

  function Released(handles: map<HandleId, Handle>, waiters: seq<HandleId>, error: Option<Failure>)
    : map<HandleId, Handle>
  {
    map h | h in handles :: if h in waiters then handles[h].(error := error) else handles[h]
  }

  /** Leave active dispatch as complete, failed or parked; only a terminal outcome releases
      the waiters and tells the dependents. */
  function Settle(s: Scheduler, g: RunId, state: NodeState, error: Option<Failure>): (r: Scheduler)
    requires g in s.runs
    ensures r.runs.Keys == s.runs.Keys
  {
    var run := s.runs[g];
    var settled := run.(state := state, error := error, awaitsExternalWake := false);
    if state.Parked? then Dequeue(SetRun(s, g, settled), run.scope)
    else
      var released := s.(handles := Released(s.handles, run.waiters, error));
      Schedule(Dequeue(SetRun(released, g, settled.(waiters := [])), run.scope), DependencyTerminal(run.scope))
  }

  function Fail(s: Scheduler, g: RunId, error: Failure): (r: Scheduler)
    requires g in s.runs
    ensures r.runs.Keys == s.runs.Keys
  {
    if s.runs[g].state.Failed? then s else Settle(s, g, Failed, Some(error))
  }

  // --- readiness ----------------------------------------------------------------------------

  /** Error of the first dependency that failed other than by an intentional abort. */
  function FailedDependencyError(s: Scheduler, deps: seq<ComputeScope>): (e: Option<Failure>)
    ensures e.Some? ==> exists d ::
            d in deps && s.Has(d) && s.Node(d).state.Failed? && s.Node(d).error == e && !e.value.isAbort
    ensures e.None? ==> forall d :: d in deps ==> !s.HardFailedAt(d)
  {
    if deps == [] then None
    else if s.Has(deps[0]) && s.Node(deps[0]).state.Failed? && s.Node(deps[0]).error.Some?
        && !s.Node(deps[0]).error.value.isAbort then
      s.Node(deps[0]).error
    else FailedDependencyError(s, deps[1..])
  }

  function Promote(s: Scheduler, g: RunId): (r: Scheduler)
    requires g in s.runs
    ensures r.runs.Keys == s.runs.Keys
  {
    Enqueue(SetRun(s, g, s.runs[g].(state := Ready, awaitsExternalWake := false)), s.runs[g].scope)
  }

  function Demote(s: Scheduler, g: RunId): (r: Scheduler)
    requires g in s.runs
    ensures r.runs.Keys == s.runs.Keys
  {
    Dequeue(SetRun(s, g, s.runs[g].(state := WaitingDeps, awaitsExternalWake := false)), s.runs[g].scope)
  }

  function Refresh(s: Scheduler, g: RunId): (r: Scheduler)
    requires g in s.runs
    ensures r.runs.Keys == s.runs.Keys
  {
    var run := s.runs[g];
    if run.BlocksReadinessRefresh() then s
    else
      var failed := FailedDependencyError(s, run.dependencyScopes);
      if failed.Some? then Fail(s, g, failed.value)
      else if s.DepsComplete(run) then
        if run.state.Ready? then s else Promote(s, g)
      else Demote(s, g)
  }

  /** Refresh the given nodes in order; `only` restricts the pass to dependents of one scope. */
  function RefreshEach(s: Scheduler, scopes: seq<ComputeScope>, only: Option<ComputeScope>): Scheduler
    decreases |scopes|
  {
    if scopes == [] then s
    else
      var s1 := if s.Has(scopes[0]) && (only.Some? ==> only.value in s.Node(scopes[0]).dependencyScopes)
                then Refresh(s, s.nodes[scopes[0]]) else s;
      RefreshEach(s1, scopes[1..], only)
  }

  function OnDependencyTerminal(s: Scheduler, completed: ComputeScope): Scheduler {
    Schedule(RefreshEach(s, s.order, Some(completed)), DispatchReady)
  }

  // --- dispatch -----------------------------------------------------------------------------

  /** One sweep over at most `budget` queue entries for a node that may begin: entries that
      are no longer ready are dropped, ready ones whose dependencies regressed are demoted,
      and gated ones go to the back. */
  function Pick(s: Scheduler, admit: (ComputeScope, nat) -> bool, round: nat,
          budget: nat): (r: (Scheduler, Option<ComputeScope>))
    ensures |r.0.readyQueue| <= |s.readyQueue|
    ensures r.1.Some? ==> |r.0.readyQueue| < |s.readyQueue|
    ensures r.1.Some? ==> r.0.IsReady(r.1.value) && r.0.DepsComplete(r.0.Node(r.1.value))
    decreases budget
  {
    if budget == 0 || s.readyQueue == [] then (s, None)
    else
      var scope := s.readyQueue[0];
      var s1 := s.(readyQueue := s.readyQueue[1..]);
      if !s.IsReady(scope) then Pick(s1, admit, round, budget - 1)
      else if !s.DepsComplete(s.Node(scope)) then
        var demoted := s.Node(scope).(state := WaitingDeps, awaitsExternalWake := false);
        Pick(SetRun(s1, s.nodes[scope], demoted), admit, round, budget - 1)
      else if !admit(scope, round) then
        Pick(s1.(readyQueue := s1.readyQueue + [scope]), admit, round, budget - 1)
      else (s1, Some(scope))
  }

  /** Begin the current step: from here the run owns the epoch it was submitted under. */
  function Begin(s: Scheduler, g: RunId, task: Task): Scheduler
    requires g in s.runs
  {
    var run := s.runs[g];
    SetTask(SetRun(s, g, run.(state := Running, executionSealed := false,
        generationAtSubmit := Some(s.Epoch(run.scope)))), g, task)
  }

  /** Complete a node whose durable artifact already satisfies it, without running it. */
  function ShortCircuit(s: Scheduler, g: RunId, hydrated: Option<Wire>): Scheduler
    requires g in s.runs
  {
    var run := s.runs[g];
    var wire := if run.resultWire.Some? then run.resultWire else if hydrated.Some? then hydrated else Some(EmptyWire);
    Settle(SetRun(s, g, run.(resultWire := wire)), g, Complete, None)
  }

  /** Begin every ready inline node and at most one pool node. */
  function Dispatch(cfg: Config, s: Scheduler, o: DispatchOracle, round: nat): Scheduler
    decreases |s.readyQueue|
  {
    if s.readyQueue == [] || s.faulted then s
    else
      var (s1, pick) := Pick(s, o.admit, round, |s.readyQueue|);
      if pick.None? then s1
      else
        var scope := pick.value;
        var g := s1.nodes[scope];
        var run := s1.runs[g];
        if |cfg.Steps(scope)| <= run.profileStepIndex then s1.(faulted := true)
        else if o.satisfied(scope, round) then
          Dispatch(cfg, ShortCircuit(s1, g, o.hydrated(scope, round)), o, round + 1)
        else if cfg.Steps(scope)[run.profileStepIndex].isInline then
          var s2 := Begin(s1, g, InlineBuild);
          if s1.WirelessDependency(run) then s2.(faulted := true)
          else Dispatch(cfg, s2, o, round + 1)
        else if !cfg.hasPool then Enqueue(s1, scope)
        else
          var s2 := Begin(s1, g, PoolFlush);
          if s1.WirelessDependency(run) then s2.(faulted := true) else s2
  }

  // --- after a step -------------------------------------------------------------------------

  /** The durable state moved while the step ran: forget its result and queue it again. */
  function RetryAfterEpochBump(s: Scheduler, g: RunId): (r: Scheduler)
    requires g in s.runs
    ensures r.runs.Keys == s.runs.Keys
  {
    var run := s.runs[g];
    var reset := run.(generationAtSubmit := None, executionSealed := false, state := Ready,
        awaitsExternalWake := false);
    Schedule(Enqueue(SetRun(DropTask(s, g), g, reset), run.scope), DispatchReady)
  }

  function ContinueStep(cfg: Config, s: Scheduler, g: RunId): (r: Scheduler)
    requires g in s.runs
    ensures r.runs.Keys == s.runs.Keys
  {
    var run := s.runs[g];
    var steps := cfg.Steps(run.scope);
    var next := run.profileStepIndex + 1;
    var index := if next < |steps| && steps[next].stepKind != steps[run.profileStepIndex].stepKind then next
        else run.profileStepIndex;
    var moved := run.(stepIndex := run.stepIndex + 1, profileStepIndex := index, state := Ready,
        executionSealed := false, awaitsExternalWake := false);
    Schedule(Enqueue(SetRun(DropTask(s, g), g, moved), run.scope), DispatchReady)
  }

  function ParkStep(s: Scheduler, g: RunId): (r: Scheduler)
    requires g in s.runs
    ensures r.runs.Keys == s.runs.Keys
  {
    var run := s.runs[g];
    if !run.state.Running? then s
    else Settle(DropTask(SetRun(s, g, run.(generationAtSubmit := None, executionSealed := false)), g), g, Parked, None)
  }

  function CompleteRun(s: Scheduler, g: RunId): (r: Scheduler)
    requires g in s.runs
    ensures r.runs.Keys == s.runs.Keys
  {
    Settle(DropTask(s, g), g, Complete, None)
  }

  function WireOr(payload: Option<Wire>, wire: Option<Wire>): Option<Wire> {
    if payload.Some? then payload else wire
  }

  /** The run as a returned step leaves it: its wire, and whether the captured generation is
      still needed, which it is while a persist is outstanding. */
  function Accepted(run: NodeRun, result: StepResult): NodeRun {
    var kept := WireOr(result.payload, run.resultWire);
    match result.outcome
    case Persist => run.(resultWire := WireOr(kept, Some(EmptyWire)))
    case Done => run.(generationAtSubmit := None, resultWire := WireOr(kept, Some(EmptyWire)))
    case _ => run.(generationAtSubmit := None, resultWire := kept)
  }

  function ActOn(cfg: Config, s: Scheduler, g: RunId, result: StepResult): (r: Scheduler)
    requires g in s.runs
    ensures r.runs.Keys == s.runs.Keys
  {
    match result.outcome
    case Continue => ContinueStep(cfg, s, g)
    case Park => ParkStep(s, g)
    case WaitDeps => SetTask(s, g, if result.waitRecovery.None? then SoftWait else Defer(result.waitRecovery.value))
    case Persist => SetTask(s, g, PersistQueued(result.persistThenContinue))
    case Done => CompleteRun(s, g)
  }

  /** A step returned normally.  Note that the run need not be running here. */
  function AfterStepSuccess(cfg: Config, s: Scheduler, g: RunId, result: StepResult): (r: Scheduler)
    requires g in s.runs
    ensures r.runs.Keys == s.runs.Keys
  {
    if s.Stale(s.runs[g]) then RetryAfterEpochBump(s, g)
    else ActOn(cfg, SetRun(s, g, Accepted(s.runs[g], result)), g, result)
  }

  /** The run leaves its step and waits, with the given edges. */
  function Deferred(s: Scheduler, g: RunId, deps: seq<ComputeScope>, external: bool): (r: Scheduler)
    requires g in s.runs
    ensures r.runs.Keys == s.runs.Keys
  {
    var reset := s.runs[g].(generationAtSubmit := None, executionSealed := false, error := None, state := WaitingDeps,
                            dependencyScopes := deps, awaitsExternalWake := external);
    Dequeue(SetRun(DropTask(s, g), g, reset), s.runs[g].scope)
  }

  /** Soft deferral: wait for an external force-fresh wake. */
  function DemoteSoftly(s: Scheduler, g: RunId): (r: Scheduler)
    requires g in s.runs
    ensures r.runs.Keys == s.runs.Keys
  {
    if !s.runs[g].state.Running? then DropTask(s, g) else Deferred(s, g, s.runs[g].dependencyScopes, true)
  }

  /** Deferral onto a dependency, which is grafted (never onto the run itself) and, if asked
      for, submitted afresh. */
  function RecoverOnDependency(s: Scheduler, g: RunId, recovery: Recovery): (r: Scheduler)
    requires g in s.runs
    ensures r.runs.Keys == s.runs.Keys
  {
    var run := s.runs[g];
    var dep := recovery.dependencyScope;
    if !run.state.Running? then DropTask(s, g)
    else
      var grafts := dep != run.scope && dep !in run.dependencyScopes;
      var deps := if grafts then run.dependencyScopes + [dep] else run.dependencyScopes;
      var demoted := Deferred(s, g, deps, !recovery.forceFresh);
      if recovery.forceFresh then Schedule(demoted, ForceFresh(dep, run.priorityBand, recovery.stepKind, run.bundle))
      else demoted
  }

  /** Post-lock persist, before the call: give up when aborted, retry when the epoch moved. */
  function PersistCheck(s: Scheduler, g: RunId): Scheduler
    requires g in s.runs && g in s.tasks && s.tasks[g].PersistQueued?
  {
    var run := s.runs[g];
    if !run.state.Running? then DropTask(s, g)
    else if s.Stale(run) then RetryAfterEpochBump(s, g)
    else SetTask(s, g, PersistCalling(s.tasks[g].thenContinue))
  }

  /** The persist call wrote its artifact and returned. */
  function PersistWrite(s: Scheduler, g: RunId): Scheduler
    requires g in s.runs && g in s.tasks && s.tasks[g].PersistCalling?
  {
    SetTask(s.(durable := s.durable + {s.runs[g].scope}), g, PersistReturned(s.tasks[g].thenContinue))
  }

  /** Post-lock persist, after the call: the second check, then continue or complete. */
  function PersistFinish(cfg: Config, s: Scheduler, g: RunId): Scheduler
    requires g in s.runs && g in s.tasks && s.tasks[g].PersistReturned?
  {
    var run := s.runs[g];
    if !run.state.Running? then DropTask(s, g)
    else if s.Stale(run) then RetryAfterEpochBump(s, g)
    else if s.tasks[g].thenContinue then ContinueStep(cfg, s, g)
    else CompleteRun(s, g)
  }

  /** The step or its wire builder raised. */
  function RaiseIn(s: Scheduler, g: RunId, error: Failure): Scheduler
    requires g in s.runs
  {
    Fail(DropTask(s, g), g, error)
  }

  /** The pool hand-off or the persist call raised: only a run still running fails. */
  function RaiseIfRunning(s: Scheduler, g: RunId, error: Failure): Scheduler
    requires g in s.runs
  {
    if s.runs[g].state.Running? then RaiseIn(s, g, error) else DropTask(s, g)
  }

  // --- submission ---------------------------------------------------------------------------

  function WakeParked(s: Scheduler, g: RunId): (r: Scheduler)
    requires g in s.runs
    ensures r.runs.Keys == s.runs.Keys
  {
    var run := s.runs[g];
    if !run.state.Parked? then s
    else
      var woken := SetRun(s, g, run.(generationAtSubmit := None, executionSealed := false));
      if s.DepsComplete(run) then Promote(woken, g) else Demote(woken, g)
  }

  /** A walk from a scope down `waiting_deps` nodes along dependency edges. */
  ghost predicate WaitingPath(s: Scheduler, path: seq<ComputeScope>) {
    && path != []
    && (forall i :: 0 <= i < |path| ==> s.Has(path[i]))
    && (forall i :: 0 < i < |path| ==>
         s.Node(path[i]).state.WaitingDeps? && path[i] in s.Node(path[i - 1]).dependencyScopes)
  }

  ghost predicate WaitingReach(s: Scheduler, from: ComputeScope, to: ComputeScope) {
    exists path :: WaitingPath(s, path) && path[0] == from && path[|path| - 1] == to
  }

  /** The abort-failed dependencies below a waiting node that have a bundle to restart with. */
  ghost function AbortedBelow(s: Scheduler, g: RunId): set<ComputeScope>
    requires g in s.runs
  {
    set d | d in s.nodes && AbortedDependency(s, g, d)
  }

  /** Some node reached through waiting nodes depends on `d`, which was intentionally aborted. */
  ghost predicate AbortedDependency(s: Scheduler, g: RunId, d: ComputeScope)
    requires g in s.runs
  {
    && s.AbortFailedAt(d)
    && RestartBundle(s, g, d).Some?
    && exists via :: WaitingReach(s, s.runs[g].scope, via) && DependsOn(s, via, d)
  }

  predicate DependsOn(s: Scheduler, scope: ComputeScope, d: ComputeScope) {
    s.Has(scope) && d in s.Node(scope).dependencyScopes
  }

  function RestartBundle(s: Scheduler, g: RunId, d: ComputeScope): Option<Bundle>
    requires g in s.runs && s.Has(d)
  {
    if s.Node(d).bundle.Some? then s.Node(d).bundle else s.runs[g].bundle
  }

  function RestartRequest(s: Scheduler, g: RunId, d: ComputeScope): Callback
    requires g in s.runs && s.Has(d)
  {
    ForceFresh(d, s.runs[g].priorityBand, None, RestartBundle(s, g, d))
  }

  /** Queue one force-fresh submission for each abort-failed dependency below a waiting node. */
  ghost function ScheduleRestarts(s: Scheduler, g: RunId): Scheduler
    requires g in s.runs
  {
    s.(callbacks := s.callbacks + multiset(set d | d in AbortedBelow(s, g) && s.Has(d) :: RestartRequest(s, g, d)))
  }

  function AdoptPriority(run: NodeRun, band: PriorityBand): NodeRun {
    if run.executionSealed || run.IsTerminal() || run.priorityBand.Rank() <= band.Rank() then run
    else run.(priorityBand := band)
  }

  /** A new waiter on a run that is still going; a terminal run needs none. */
  function Attach(s: Scheduler, g: RunId, band: PriorityBand): Scheduler
    requires g in s.runs
  {
    var run := s.runs[g];
    if run.IsTerminal() then s
    else
      var attached := AdoptPriority(run.(waiters := run.waiters + [s.nextHandle]), band);
      SetRun(s, g, attached).(handles := s.handles[s.nextHandle := Handle(g, None)], nextHandle := s.nextHandle + 1)
  }

  /** Take a terminal run out of the node table so its scope can be planned again. */
  function Replace(s: Scheduler, scope: ComputeScope): Scheduler
    requires s.Has(scope)
  {
    var g := s.nodes[scope];
    SetRun(Dequeue(s, scope), g, s.runs[g].(waiters := [])).(nodes := s.nodes - {scope},
        order := Without(s.order, scope))
  }

  function FreshRun(s: Scheduler, run: NodeRun): Scheduler {
    s.(runs := s.runs[s.nextRun := run], nodes := s.nodes[run.scope := s.nextRun], order := s.order + [run.scope],
        nextRun := s.nextRun + 1)
  }

  /** Index of the first profile step of the given kind; no kind means the first step. */
  function EntryIndex(steps: seq<StepSpec>, kind: Option<string>): (r: Option<nat>)
    ensures r.Some? && kind.Some? ==> r.value < |steps| && steps[r.value].stepKind == kind.value
    ensures kind.Some? ==> forall j :: 0 <= j < (if r.Some? then r.value else |steps|) ==>
            steps[j].stepKind != kind.value
  {
    if kind.None? then Some(0)
    else if steps == [] then None
    else if steps[0].stepKind == kind.value then Some(0)
    else var rest := EntryIndex(steps[1..], kind); if rest.None? then None else Some(rest.value + 1)
  }

  function NewRun(planned: PlannedNode, state: NodeState, index: nat, band: PriorityBand,
          bundle: Option<Bundle>): NodeRun
  {
    NodeRun(planned.scope, planned.dependencyScopes, state, index, 0, band, None, None, None, [], bundle, false, false)
  }

  /** Register one planned node unless its scope already has a run worth keeping: a terminal
      run whose durable artifact is gone is dropped first.  A requested entry step that the
      analytic does not have ends the section with an error. */
  function Register(cfg: Config, s: Scheduler, planned: PlannedNode, req: Request,
          satisfied: set<ComputeScope>): Scheduler
  {
    var s1 := if s.Has(planned.scope) && s.Node(planned.scope).IsTerminal() && planned.scope !in satisfied
        then Replace(s, planned.scope) else s;
    if planned.scope in s1.nodes then s1
    else
      var entry := EntryIndex(cfg.Steps(planned.scope), if planned.scope == req.scope then req.stepKind else None);
      if entry.None? then s1.(faulted := true)
      else FreshRun(s1, NewRun(planned, WaitingDeps, entry.value, req.band, req.bundle))
  }

  function RegisterAll(cfg: Config, s: Scheduler, planned: seq<PlannedNode>, req: Request,
          satisfied: set<ComputeScope>): Scheduler
    decreases |planned|
  {
    if planned == [] || s.faulted then s
    else RegisterAll(cfg, Register(cfg, s, planned[0], req, satisfied), planned[1..], req, satisfied)
  }

  /** An already satisfied root is not planned; it becomes a complete node without a wire. */
  function PlaceholderRoot(s: Scheduler, req: Request): Scheduler {
    if req.scope in s.nodes then s
    else FreshRun(s, NewRun(PlannedNode(req.scope, []), Complete, 0, req.band, req.bundle))
  }

  /** Register a plan and, if it left the root out, the root. */
  function RegisterPlan(cfg: Config, s: Scheduler, req: Request, plan: Plan): Scheduler {
    var registered := RegisterAll(cfg, s, plan.nodes, req, plan.satisfied);
    if registered.faulted then registered else PlaceholderRoot(registered, req)
  }

  /** Plan a scope, register the plan and re-examine every node. */
  function PlanSubmission(cfg: Config, s: Scheduler, req: Request, plan: Plan): Scheduler {
    var planned := RegisterPlan(cfg, s, req, plan);
    if planned.faulted then planned else RefreshEach(planned, planned.order, None)
  }

  /** What a force-fresh attach does before it attaches: wake a parked run, re-examine a
      waiting or ready one, and restart aborted work below one that still waits. */
  ghost function ForceFreshAttach(s: Scheduler, g: RunId): Scheduler
    requires g in s.runs
  {
    var s1 := WakeParked(s, g);
    if s1.runs[g].state.WaitingDeps? || s1.runs[g].state.Ready? then
      var s2 := Refresh(s1, g);
      if s2.runs[g].state.WaitingDeps? then ScheduleRestarts(s2, g) else s2
    else s1
  }

  /** A submission under the lock, up to the dispatch pass that ends it. */
  ghost function SubmitPrepare(cfg: Config, s: Scheduler, req: Request, plan: Plan): Scheduler {
    if s.Has(req.scope) then
      var g := s.nodes[req.scope];
      if req.forceFresh && s.runs[g].IsTerminal() then PlanSubmission(cfg, Replace(s, req.scope), req, plan)
      else Attach(if req.forceFresh then ForceFreshAttach(s, g) else s, g, req.band)
    else PlanSubmission(cfg, s, req, plan)
  }

  ghost function Submit(cfg: Config, s: Scheduler, req: Request, plan: Plan, o: DispatchOracle): Scheduler {
    Dispatch(cfg, SubmitPrepare(cfg, s, req, plan), o, 0)
  }

  /** A batch ensure drops a hollow terminal node first, so the default request plans anew. */
  ghost function EnsureSubmit(cfg: Config, s: Scheduler, req: Request, plan: Plan, o: DispatchOracle): Scheduler {
    var hollow := s.Has(req.scope) && s.Node(req.scope).IsTerminal() && !req.forceFresh;
    Submit(cfg, if hollow then Replace(s, req.scope) else s, req, plan, o)
  }

  /** One unsatisfied request of a batch, with what planning and the dispatch gates answered. */
  datatype Demand = Demand(req: Request, plan: Plan, oracle: DispatchOracle)

  /** A batch ensure submits all its unsatisfied requests in one section before it waits for
      any of them; an internal error ends the section. */
  ghost function EnsureAll(cfg: Config, s: Scheduler, demands: seq<Demand>): Scheduler
    decreases |demands|
  {
    if demands == [] || s.faulted then s
    else EnsureAll(cfg, EnsureSubmit(cfg, s, demands[0].req, demands[0].plan, demands[0].oracle), demands[1..])
  }

  ghost function WakeIfParked(cfg: Config, s: Scheduler, req: Request, plan: Plan, o: DispatchOracle): Scheduler {
    if s.Has(req.scope) && s.Node(req.scope).state.Parked? then Submit(cfg, s, req, plan, o) else s
  }

  // --- finishing and aborting ---------------------------------------------------------------

  datatype StepEnd = Returned(result: StepResult) | Raised(isAbort: bool)

  /** A pool worker reports a finished step.  It is matched by scope and by `running` only;
      `submitter` is the run whose work item finished, which the source does not consult. */
  function CompletePoolStep(cfg: Config, s: Scheduler, scope: ComputeScope, submitter: RunId, end: StepEnd): Scheduler {
    var s1 := if s.Has(scope) && s.Node(scope).state.Running? && submitter == s.nodes[scope] then s
        else DropTask(s, submitter);
    if !s.Has(scope) || !s.Node(scope).state.Running? then s1
    else
      var g := s.nodes[scope];
      match end
      case Raised(isAbort) => RaiseIn(s1, g, Failure(g, isAbort))
      case Returned(result) => AfterStepSuccess(cfg, s1, g, result)
  }

  /** Seal an inline step for execution, unless it was aborted while its wire was built. */
  function SealInline(s: Scheduler, g: RunId): Scheduler
    requires g in s.runs
  {
    if !s.runs[g].state.Running? then DropTask(s, g)
    else SetTask(SetRun(s, g, s.runs[g].(executionSealed := true)), g, InlineRun)
  }

  /** Seal a pool step and hand it to the pool, unless it was aborted meanwhile. */
  function SealPool(s: Scheduler, g: RunId): Scheduler
    requires g in s.runs
  {
    if !s.runs[g].state.Running? then DropTask(s, g)
    else SetTask(SetRun(s, g, s.runs[g].(executionSealed := true)), g, PoolWork)
  }

  function Abort(s: Scheduler, scope: ComputeScope, isAbort: bool, expected: Option<RunId>): Scheduler {
    if !s.Has(scope) || s.Node(scope).IsTerminal() || (expected.Some? && expected.value != s.nodes[scope]) then s
    else Fail(s, s.nodes[scope], Failure(s.nodes[scope], isAbort))
  }

  /** A durable wipe: the artifacts go and every wiped scope's generation strictly grows. */
  function Wipe(s: Scheduler, scopes: set<ComputeScope>): Scheduler {
    s.(durable := s.durable - scopes,
       epochs := map x | x in s.epochs.Keys + scopes :: if x in scopes then s.Epoch(x) + 1 else s.epochs[x])
  }
}
