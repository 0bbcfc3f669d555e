/**
Runs of the orchestrator: every interleaving of its critical sections with steps finishing,
callers submitting and aborting, and the store being wiped.
*/
module SchedulerEvents {
  import opened Prelude
  import opened Scheduler
  import opened SchedulerInvariants
  import opened SchedulerPasses
  import opened SchedulerFinish
  import opened SchedulerSubmit

  datatype Event =
    // callers
    | Submits(req: Request, plan: Plan, oracle: DispatchOracle)
    | Ensures(req: Request, plan: Plan, oracle: DispatchOracle)
    | WakesParked(req: Request, plan: Plan, oracle: DispatchOracle)
    | PlanningRaises(scope: ComputeScope)
    | Dispatches(oracle: DispatchOracle)
    | RunsIdle(oracle: DispatchOracle)
    | Aborts(scope: ComputeScope, isAbort: bool, expected: Option<RunId>)
    // post-lock callbacks
    | RunsCallback(cb: Callback, plan: Plan, oracle: DispatchOracle)
    // inline steps
    | SealsInline(g: RunId)
    | BuildRaises(g: RunId, isAbort: bool)
    | InlineEnds(g: RunId, end: StepEnd)
    // pool steps
    | SealsPool(g: RunId)
    | HandOffRaises(g: RunId, isAbort: bool)
    | PoolReports(scope: ComputeScope, submitter: RunId, end: StepEnd)
    // post-lock work of one run
    | SoftWaits(g: RunId)
    | Defers(g: RunId)
    | PersistChecks(g: RunId)
    | PersistWrites(g: RunId)
    | PersistRaises(g: RunId, isAbort: bool)
    | PersistDefers(g: RunId, recovery: Recovery)
    | PersistFinishes(g: RunId)
    // the store
    | Wipes(scopes: set<ComputeScope>)

  function CallbackRequest(cb: Callback): Request
    requires cb.ForceFresh?
  {
    Request(cb.scope, cb.stepKind, cb.band, true, cb.bundle)
  }

  /** The work item the event is about is really there. */
  predicate Possible(s: Scheduler, e: Event) {
    match e
    case PlanningRaises(scope) => s.Has(scope) && s.Node(scope).IsTerminal()
    case WakesParked(req, _, _) => req.forceFresh
    case RunsCallback(cb, _, _) => cb in s.callbacks
    case SealsInline(g) => g in s.runs && g in s.tasks && s.tasks[g].InlineBuild?
    case BuildRaises(g, _) => g in s.runs && g in s.tasks && s.tasks[g].InlineBuild?
    case InlineEnds(g, _) => g in s.runs && g in s.tasks && s.tasks[g].InlineRun?
    case SealsPool(g) => g in s.runs && g in s.tasks && s.tasks[g].PoolFlush?
    case HandOffRaises(g, _) => g in s.runs && g in s.tasks && (s.tasks[g].PoolFlush? || s.tasks[g].PoolWork?)
    case PoolReports(scope, g, _) => g in s.runs && g in s.tasks && s.tasks[g].PoolWork? && s.runs[g].scope == scope
    case SoftWaits(g) => g in s.runs && g in s.tasks && s.tasks[g].SoftWait?
    case Defers(g) => g in s.runs && g in s.tasks && s.tasks[g].Defer?
    case PersistChecks(g) => g in s.runs && g in s.tasks && s.tasks[g].PersistQueued?
    case PersistWrites(g) => g in s.runs && g in s.tasks && s.tasks[g].PersistCalling?
    case PersistRaises(g, _) => g in s.runs && g in s.tasks && s.tasks[g].PersistCalling?
    case PersistDefers(g, _) => g in s.runs && g in s.tasks && s.tasks[g].PersistCalling?
    case PersistFinishes(g) => g in s.runs && g in s.tasks && s.tasks[g].PersistReturned?
    case _ => true
  }

  /** Running a callback is modelled as taking it out of the pending ones in the section that
      carries out its effect, before the dispatch pass that may end it. */
  ghost function RunCallback(cfg: Config, s: Scheduler, cb: Callback, plan: Plan, o: DispatchOracle): Scheduler {
    match cb
    case DispatchReady => Dispatch(cfg, Consume(s, cb), o, 0)
    case DependencyTerminal(x) => Consume(OnDependencyTerminal(s, x), cb)
    case ForceFresh(_, _, _, _) => Dispatch(cfg, Consume(SubmitPrepare(cfg, s, CallbackRequest(cb), plan), cb), o, 0)
  }

  ghost function Apply(cfg: Config, s: Scheduler, e: Event): Scheduler
    requires Possible(s, e)
  {
    match e
    case Submits(req, plan, o) => Submit(cfg, s, req, plan, o)
    case Ensures(req, plan, o) => EnsureSubmit(cfg, s, req, plan, o)
    case WakesParked(req, plan, o) => WakeIfParked(cfg, s, req, plan, o)
    case PlanningRaises(scope) => Replace(s, scope)
    case Dispatches(o) => Dispatch(cfg, s, o, 0)
    case RunsIdle(o) => Dispatch(cfg, RefreshEach(s, s.order, None), o, 0)
    case Aborts(scope, isAbort, expected) => Abort(s, scope, isAbort, expected)
    case RunsCallback(cb, plan, o) => RunCallback(cfg, s, cb, plan, o)
    case SealsInline(g) => SealInline(s, g)
    case BuildRaises(g, isAbort) => RaiseIn(s, g, Failure(g, isAbort))
    case InlineEnds(g, end) =>
      if end.Raised? then RaiseIn(s, g, Failure(g, end.isAbort)) else AfterStepSuccess(cfg, s, g, end.result)
    case SealsPool(g) => SealPool(s, g)
    case HandOffRaises(g, isAbort) => RaiseIfRunning(s, g, Failure(g, isAbort))
    case PoolReports(scope, submitter, end) => CompletePoolStep(cfg, s, scope, submitter, end)
    case SoftWaits(g) => DemoteSoftly(s, g)
    case Defers(g) => RecoverOnDependency(s, g, s.tasks[g].recovery)
    case PersistChecks(g) => PersistCheck(s, g)
    case PersistWrites(g) => PersistWrite(s, g)
    case PersistRaises(g, isAbort) => RaiseIfRunning(s, g, Failure(g, isAbort))
    case PersistDefers(g, recovery) => RecoverOnDependency(s, g, recovery)
    case PersistFinishes(g) => PersistFinish(cfg, s, g)
    case Wipes(scopes) => Wipe(s, scopes)
  }

  /** A pool report reaches the run whose work item finished, or a node that is not running. */
  ghost predicate ReportMatches(s: Scheduler, scope: ComputeScope, submitter: RunId) {
    s.Has(scope) && s.Node(scope).state.Running? ==> s.nodes[scope] == submitter
  }

  /** No abort hits an inline step while it executes. */
  ghost predicate AbortSpares(s: Scheduler, scope: ComputeScope) {
    s.Has(scope) && s.nodes[scope] in s.tasks ==> !s.tasks[s.nodes[scope]].InlineRun?
  }

  /** What is assumed of the environment: plans and recoveries follow a ranked ensure relation,
      a pool report reaches its own run, and executing inline steps are not aborted. */
  ghost predicate Disciplined(cfg: Config, s: Scheduler, e: Event) {
    match e
    case Submits(req, plan, _) => PlanOk(cfg, req, plan)
    case Ensures(req, plan, _) => PlanOk(cfg, req, plan)
    case WakesParked(req, plan, _) => PlanOk(cfg, req, plan)
    case RunsCallback(cb, plan, _) => cb.ForceFresh? ==> PlanOk(cfg, CallbackRequest(cb), plan)
    case Aborts(scope, _, _) => AbortSpares(s, scope)
    case InlineEnds(g, end) => end.Returned? && g in s.runs ==> ResultOk(cfg, s.runs[g].scope, end.result)
    case PoolReports(scope, submitter, end) =>
      && ReportMatches(s, scope, submitter)
      && (end.Returned? ==> ResultOk(cfg, scope, end.result))
    case PersistDefers(g, recovery) => g in s.runs ==> RecoveryOk(cfg, s.runs[g].scope, recovery)
    case _ => true
  }

  /** Consecutive states are linked by possible events, whatever the environment does. */
  ghost predicate IsTrace(cfg: Config, states: seq<Scheduler>, events: seq<Event>) {
    && |states| == |events| + 1
    && states[0] == INITIAL
    && (forall i {:trigger events[i]} :: 0 <= i < |events| ==>
          Possible(states[i], events[i]) && states[i + 1] == Apply(cfg, states[i], events[i]))
  }

  // --- one event keeps the invariant --------------------------------------------------------

  /** What one event guarantees: runs accumulate, terminal runs stay as they are, generations
      only grow, a step begins only on complete dependencies and under the current generation,
      and a running step's captured generation is never changed, only cleared. */
  ghost predicate Guarantees(s: Scheduler, s': Scheduler) {
    && Absorbs(s, s')
    && (forall x {:trigger s'.Epoch(x)} :: s.Epoch(x) <= s'.Epoch(x))
    && (forall g {:trigger s'.Running(g)} :: s'.Running(g) ==>
          if s.Running(g) then Keeps(s.runs[g], s'.runs[g]) else BeganSoundly(s', g))
  }

  ghost predicate EventKeeps(cfg: Config, s: Scheduler, s': Scheduler) {
    Inv(cfg, s') && Guarantees(s, s')
  }

  lemma MovesKeep(cfg: Config, s: Scheduler, s': Scheduler, g: RunId)
    requires Inv(cfg, s) && Moves(cfg, s, s', g)
    ensures EventKeeps(cfg, s, s') && s'.faulted == s.faulted
  {
    hide Core, Wakes;
  }

  /** A section that only prepares, followed by a dispatch pass. */
  lemma PrepareThenDispatch(cfg: Config, s: Scheduler, s1: Scheduler, o: DispatchOracle)
    requires Inv(cfg, s1) && Prepares(s, s1) && !s.faulted
    ensures !Dispatch(cfg, s1, o, 0).faulted ==> EventKeeps(cfg, s, Dispatch(cfg, s1, o, 0))
  {
    hide Core, Wakes, Dispatch;
    DispatchKeeps(cfg, s1, o, 0);
    var s' := Dispatch(cfg, s1, o, 0);
    if !s'.faulted { GuaranteeCompose(s, s1, s'); }
  }

  lemma GuaranteeCompose(s: Scheduler, s1: Scheduler, s': Scheduler)
    requires Prepares(s, s1) && SchedulerInvariants.Dispatches(s1, s') && Absorbs(s1, s')
    ensures Guarantees(s, s')
  {
    forall g | s'.Running(g)
      ensures if s.Running(g) then Keeps(s.runs[g], s'.runs[g]) else BeganSoundly(s', g)
    {
      if s1.Running(g) {
        assert s.Running(g);
        assert s'.runs[g] == s1.runs[g];
      } else {
        assert BeganSoundly(s', g);
      }
    }
  }

  lemma SubmitPrepareKeeps(cfg: Config, s: Scheduler, req: Request, plan: Plan)
    requires !s.faulted && Core(cfg, s) && PlanOk(cfg, req, plan)
    ensures Core(cfg, SubmitPrepare(cfg, s, req, plan)) && (Wakes(s) ==> Wakes(SubmitPrepare(cfg, s, req, plan)))
    ensures Prepares(s, SubmitPrepare(cfg, s, req, plan))
    ensures s.callbacks <= SubmitPrepare(cfg, s, req, plan).callbacks
  {
    hide Core, Wakes, PlanSubmission, Replace, ForceFreshAttach, Attach;
    if s.Has(req.scope) {
      var g := s.nodes[req.scope];
      if req.forceFresh && s.runs[g].IsTerminal() {
        ReplaceKeeps(cfg, s, req.scope);
        PlanSubmissionKeeps(cfg, Replace(s, req.scope), req, plan);
        PreparesTransitive(s, Replace(s, req.scope), SubmitPrepare(cfg, s, req, plan));
        InvIsCoreAndWakes(cfg, SubmitPrepare(cfg, s, req, plan));
      } else if req.forceFresh {
        ForceFreshAttachKeeps(cfg, s, g);
        AttachKeeps(cfg, ForceFreshAttach(s, g), g, req.band);
        PreparesTransitive(s, ForceFreshAttach(s, g), SubmitPrepare(cfg, s, req, plan));
      } else {
        AttachKeeps(cfg, s, g, req.band);
      }
    } else {
      PlanSubmissionKeeps(cfg, s, req, plan);
      InvIsCoreAndWakes(cfg, SubmitPrepare(cfg, s, req, plan));
    }
  }

  lemma InvIsCoreAndWakes(cfg: Config, s: Scheduler)
    requires Inv(cfg, s)
    ensures Core(cfg, s) && Wakes(s)
  {
  }

  // --- consuming a callback -----------------------------------------------------------------

  /** A callback may be forgotten once nothing it would wake is stuck. */
  lemma ConsumeKeeps(cfg: Config, s: Scheduler, cb: Callback)
    requires Inv(cfg, s)
    requires forall g {:trigger s.runs[g]} ::
             g in s.runs && s.runs[g].state.WaitingDeps? && WakesUp(cb, s.runs[g]) ==> !s.DepsComplete(s.runs[g])
    ensures Inv(cfg, Consume(s, cb)) && Prepares(s, Consume(s, cb))
  {
    var s' := Consume(s, cb);
    forall g | g in s'.runs ensures RunOk(cfg, s', g) {
      assert RunOk(cfg, s, g);
      SameRunOk(cfg, s, s', g);
    }
    assert TableOk(s') by {
      forall g | g in s'.runs && !s'.runs[g].IsTerminal() ensures Live(s', g) { assert Live(s, g); }
    }
    assert QueueOk(s') by {
      forall x ensures x in s'.readyQueue <==> s'.IsReady(x) { assert x in s.readyQueue <==> s.IsReady(x); }
    }
    forall h | h in s'.handles ensures HandleOk(s', h) { assert HandleOk(s, h); }
    forall g | g in s'.runs ensures WakeOk(s', g) { ConsumeKeepsWake(cfg, s, cb, g); }
  }

  lemma ConsumeKeepsWake(cfg: Config, s: Scheduler, cb: Callback, g: RunId)
    requires Wakes(s) && g in s.runs
    requires s.runs[g].state.WaitingDeps? && WakesUp(cb, s.runs[g]) ==> !s.DepsComplete(s.runs[g])
    ensures WakeOk(Consume(s, cb), g)
  {
    var s' := Consume(s, cb);
    var run := s.runs[g];
    assert WakeOk(s, g);
    if run.state.WaitingDeps? && !run.awaitsExternalWake && s'.DepsComplete(run) {
      assert s.DepsComplete(run) by { forall d | d in run.dependencyScopes
             ensures s.CompleteAt(d) { assert s'.CompleteAt(d); } }
      var other :| other in s.callbacks && WakesUp(other, run);
      assert other in s'.callbacks;
    }
  }

  /** After its effect, a force-fresh submission has nothing left to wake. */
  lemma ForceFreshSettles(cfg: Config, s: Scheduler, req: Request, plan: Plan, g: RunId)
    requires !s.faulted && Inv(cfg, s) && PlanOk(cfg, req, plan) && req.forceFresh
    requires g in SubmitPrepare(cfg, s, req, plan).runs && SubmitPrepare(cfg, s, req, plan).runs[g].state.WaitingDeps?
    requires req.scope in SubmitPrepare(cfg, s, req, plan).runs[g].dependencyScopes
             || req.scope == SubmitPrepare(cfg, s, req, plan).runs[g].scope
    ensures !SubmitPrepare(cfg, s, req, plan).DepsComplete(SubmitPrepare(cfg, s, req, plan).runs[g])
  {
    var s' := SubmitPrepare(cfg, s, req, plan);
    if s.Has(req.scope) && !s.Node(req.scope).IsTerminal() {
      ForceFreshAttachSettles(cfg, s, req, plan, g);
    } else {
      hide Core, Wakes, PlanSubmission, Replace;
      if s.Has(req.scope) {
        ReplaceKeeps(cfg, s, req.scope);
        PlanSubmissionKeeps(cfg, Replace(s, req.scope), req, plan);
      } else {
        PlanSubmissionKeeps(cfg, s, req, plan);
      }
      assert s'.runs[g].state.WaitingDeps?;
    }
  }

  lemma ForceFreshAttachSettles(cfg: Config, s: Scheduler, req: Request, plan: Plan, g: RunId)
    requires !s.faulted && Inv(cfg, s) && req.forceFresh && s.Has(req.scope) && !s.Node(req.scope).IsTerminal()
    requires g in SubmitPrepare(cfg, s, req, plan).runs && SubmitPrepare(cfg, s, req, plan).runs[g].state.WaitingDeps?
    requires req.scope in SubmitPrepare(cfg, s, req, plan).runs[g].dependencyScopes
             || req.scope == SubmitPrepare(cfg, s, req, plan).runs[g].scope
    ensures !SubmitPrepare(cfg, s, req, plan).DepsComplete(SubmitPrepare(cfg, s, req, plan).runs[g])
  {
    var root := s.nodes[req.scope];
    InvIsCoreAndWakes(cfg, s);
    ForceFreshAttachKeeps(cfg, s, root);
    var s1 := ForceFreshAttach(s, root);
    var s' := SubmitPrepare(cfg, s, req, plan);
    assert s' == Attach(s1, root, req.band);
    AttachSame(s1, root, req.band);
    hide ForceFreshAttach, Core, Wakes, Inv, Prepares, SubmitPrepare, Attach;
    assert !s'.CompleteAt(req.scope);
    if g == root {
      var d :| d in s1.runs[root].dependencyScopes && !s1.CompleteAt(d);
      assert !s'.CompleteAt(d);
    } else if req.scope !in s'.runs[g].dependencyScopes {
      OneRunPerScope(cfg, s, s1, root, g);
    }
  }

  lemma OneRunPerScope(cfg: Config, s: Scheduler, s1: Scheduler, root: RunId, g: RunId)
    requires Inv(cfg, s) && g in s.runs && g != root && root in s.runs && s1.runs.Keys == s.runs.Keys
             && s1.runs[g] == s.runs[g]
    requires s.runs[g].scope in s.nodes && s.nodes[s.runs[g].scope] == root
    ensures s1.runs[g].IsTerminal()
  {
    assert !Live(s, g);
  }

  lemma ForceFreshRuns(cfg: Config, s: Scheduler, cb: Callback, plan: Plan, o: DispatchOracle)
    requires Inv(cfg, s) && !s.faulted && cb.ForceFresh? && cb in s.callbacks && PlanOk(cfg, CallbackRequest(cb), plan)
    ensures !RunCallback(cfg, s, cb, plan, o).faulted ==> EventKeeps(cfg, s, RunCallback(cfg, s, cb, plan, o))
  {
    var req := CallbackRequest(cb);
    var s1 := SubmitPrepare(cfg, s, req, plan);
    SubmitPrepareKeeps(cfg, s, req, plan);
    forall g | g in s1.runs && s1.runs[g].state.WaitingDeps? && WakesUp(cb, s1.runs[g])
        ensures !s1.DepsComplete(s1.runs[g]) {
      ForceFreshSettles(cfg, s, req, plan, g);
    }
    hide Core, Wakes, SubmitPrepare, Dispatch;
    ConsumeKeeps(cfg, s1, cb);
    PreparesTransitive(s, s1, Consume(s1, cb));
    PrepareThenDispatch(cfg, s, Consume(s1, cb), o);
  }

  lemma DispatchReadyRuns(cfg: Config, s: Scheduler, plan: Plan, o: DispatchOracle)
    requires Inv(cfg, s) && !s.faulted && DispatchReady in s.callbacks
    ensures !RunCallback(cfg, s, DispatchReady, plan, o).faulted ==>
            EventKeeps(cfg, s, RunCallback(cfg, s, DispatchReady, plan, o))
  {
    hide Core, Wakes, Dispatch;
    ConsumeKeeps(cfg, s, DispatchReady);
    PrepareThenDispatch(cfg, s, Consume(s, DispatchReady), o);
  }

  /** A dependency-terminal callback re-examines every dependent, so nothing it should have
      woken is left stuck. */
  lemma DependencyTerminalRuns(cfg: Config, s: Scheduler, x: ComputeScope, plan: Plan, o: DispatchOracle)
    requires Inv(cfg, s) && !s.faulted && DependencyTerminal(x) in s.callbacks
    ensures EventKeeps(cfg, s, RunCallback(cfg, s, DependencyTerminal(x), plan, o))
    ensures !RunCallback(cfg, s, DependencyTerminal(x), plan, o).faulted
  {
    var cb := DependencyTerminal(x);
    RefreshEachKeeps(cfg, s, s.order, Some(x));
    var s1 := RefreshEach(s, s.order, Some(x));
    MoreCallbacksKeep(cfg, s1, multiset{DispatchReady});
    var s2 := Schedule(s1, DispatchReady);
    forall g | g in s2.runs && s2.runs[g].state.WaitingDeps? && WakesUp(cb, s2.runs[g])
        ensures !s2.DepsComplete(s2.runs[g]) {
      DependentReexamined(cfg, s, x, g);
    }
    hide Core, Wakes, RefreshEach;
    ConsumeKeeps(cfg, s2, cb);
    PreparesTransitive(s, s1, s2);
    PreparesTransitive(s, s2, Consume(s2, cb));
  }

  lemma DependentReexamined(cfg: Config, s: Scheduler, x: ComputeScope, g: RunId)
    requires Inv(cfg, s) && g in s.runs
    requires RefreshEach(s, s.order, Some(x)).runs.Keys == s.runs.Keys
    requires RefreshEach(s, s.order, Some(x)).runs[g].state.WaitingDeps?
             && x in RefreshEach(s, s.order, Some(x)).runs[g].dependencyScopes
    ensures !Schedule(RefreshEach(s, s.order, Some(x)),
            DispatchReady).DepsComplete(RefreshEach(s, s.order, Some(x)).runs[g])
  {
    RefreshEachKeeps(cfg, s, s.order, Some(x));
    var s1 := RefreshEach(s, s.order, Some(x));
    assert Live(s1, g);
    var scope := s1.runs[g].scope;
    assert scope in s.order && Selected(s, scope, Some(x));
    var d :| d in s1.runs[g].dependencyScopes && !s1.CompleteAt(d);
    assert !Schedule(s1, DispatchReady).CompleteAt(d);
  }

  // --- the remaining events -----------------------------------------------------------------

  lemma SubmitEventKeeps(cfg: Config, s: Scheduler, req: Request, plan: Plan, o: DispatchOracle)
    requires Inv(cfg, s) && !s.faulted && PlanOk(cfg, req, plan)
    ensures !Submit(cfg, s, req, plan, o).faulted ==> EventKeeps(cfg, s, Submit(cfg, s, req, plan, o))
  {
    SubmitPrepareKeeps(cfg, s, req, plan);
    hide Core, Wakes, SubmitPrepare, Dispatch;
    PrepareThenDispatch(cfg, s, SubmitPrepare(cfg, s, req, plan), o);
  }

  lemma EnsureEventKeeps(cfg: Config, s: Scheduler, req: Request, plan: Plan, o: DispatchOracle)
    requires Inv(cfg, s) && !s.faulted && PlanOk(cfg, req, plan)
    ensures !EnsureSubmit(cfg, s, req, plan, o).faulted ==> EventKeeps(cfg, s, EnsureSubmit(cfg, s, req, plan, o))
  {
    if s.Has(req.scope) && s.Node(req.scope).IsTerminal() && !req.forceFresh {
      ReplaceKeeps(cfg, s, req.scope);
      var s1 := Replace(s, req.scope);
      SubmitPrepareKeeps(cfg, s1, req, plan);
      hide Core, Wakes, SubmitPrepare, Dispatch, Replace;
      PreparesTransitive(s, s1, SubmitPrepare(cfg, s1, req, plan));
      PrepareThenDispatch(cfg, s, SubmitPrepare(cfg, s1, req, plan), o);
    } else {
      SubmitEventKeeps(cfg, s, req, plan, o);
    }
  }

  /** A whole batch keeps the invariant, like the ensure events it is made of. */
  lemma {:induction false} EnsureAllKeeps(cfg: Config, s: Scheduler, demands: seq<Demand>)
    requires Inv(cfg, s) && forall d :: d in demands ==> PlanOk(cfg, d.req, d.plan)
    ensures !EnsureAll(cfg, s, demands).faulted ==> Inv(cfg, EnsureAll(cfg, s, demands))
    decreases |demands|
  {
    if demands != [] && !s.faulted {
      var d := demands[0];
      EnsureEventKeeps(cfg, s, d.req, d.plan, d.oracle);
      hide Inv, EnsureSubmit, PlanOk, Guarantees;
      var s1 := EnsureSubmit(cfg, s, d.req, d.plan, d.oracle);
      if !s1.faulted { EnsureAllKeeps(cfg, s1, demands[1..]); }
    }
  }

  lemma IdleKeeps(cfg: Config, s: Scheduler, o: DispatchOracle)
    requires Inv(cfg, s) && !s.faulted
    ensures !Dispatch(cfg, RefreshEach(s, s.order, None), o, 0).faulted ==>
              EventKeeps(cfg, s, Dispatch(cfg, RefreshEach(s, s.order, None), o, 0))
  {
    RefreshAllWakes(cfg, s);
    hide Core, Wakes, RefreshEach, Dispatch;
    PrepareThenDispatch(cfg, s, RefreshEach(s, s.order, None), o);
  }

  lemma WipeKeeps(cfg: Config, s: Scheduler, scopes: set<ComputeScope>)
    requires Inv(cfg, s)
    ensures EventKeeps(cfg, s, Wipe(s, scopes))
  {
    var s' := Wipe(s, scopes);
    forall g | g in s'.runs ensures RunOk(cfg, s', g) {
      assert RunOk(cfg, s, g);
      WipeKeepsRun(cfg, s, scopes, g);
    }
    assert TableOk(s') by {
      forall g | g in s'.runs && !s'.runs[g].IsTerminal() ensures Live(s', g) { assert Live(s, g); }
    }
    assert QueueOk(s') by {
      forall x ensures x in s'.readyQueue <==> s'.IsReady(x) { assert x in s.readyQueue <==> s.IsReady(x); }
    }
    forall h | h in s'.handles ensures HandleOk(s', h) { assert HandleOk(s, h); }
    forall g | g in s'.runs ensures WakeOk(s', g) {
      assert WakeOk(s, g);
      assert forall d :: s'.CompleteAt(d) ==> s.CompleteAt(d);
    }
  }

  /** A wipe makes in-flight work stale; it never makes lost work look durable. */
  lemma WipeKeepsRun(cfg: Config, s: Scheduler, scopes: set<ComputeScope>, g: RunId)
    requires g in s.runs && RunOk(cfg, s, g)
    ensures RunOk(cfg, Wipe(s, scopes), g)
  {
    var s' := Wipe(s, scopes);
    FailureStays(s, s', g);
    var x := s.runs[g].scope;
    assert s'.Epoch(x) == if x in scopes then s.Epoch(x) + 1 else s.Epoch(x);
  }

  lemma AbortEventKeeps(cfg: Config, s: Scheduler, scope: ComputeScope, isAbort: bool, expected: Option<RunId>)
    requires Inv(cfg, s) && AbortSpares(s, scope)
    ensures EventKeeps(cfg, s, Abort(s, scope, isAbort, expected))
            && Abort(s, scope, isAbort, expected).faulted == s.faulted
  {
    if !s.Has(scope) || s.Node(scope).IsTerminal() || (expected.Some? && expected.value != s.nodes[scope]) {
    } else {
      AbortKeeps(cfg, s, s.nodes[scope], isAbort);
      hide Moves, Core, Wakes, Fail;
      MovesKeep(cfg, s, Abort(s, scope, isAbort, expected), s.nodes[scope]);
    }
  }

  lemma PoolReportKeeps(cfg: Config, s: Scheduler, e: Event)
    requires Inv(cfg, s) && e.PoolReports? && Possible(s, e) && Disciplined(cfg, s, e)
    ensures EventKeeps(cfg, s, Apply(cfg, s, e)) && Apply(cfg, s, e).faulted == s.faulted
  {
    var g := e.submitter;
    CoreRun(cfg, s, g);
    var s' := CompletePoolStep(cfg, s, e.scope, g, e.end);
    if s.Has(e.scope) && s.Node(e.scope).state.Running? {
      assert s.runs[s.nodes[e.scope]].scope == e.scope;
      hide Core, Wakes, Moves, AfterStepSuccess, RaiseIn;
      match e.end {
        case Raised(isAbort) => RaiseKeeps(cfg, s, g, isAbort);
        case Returned(result) => AfterStepKeeps(cfg, s, g, result);
      }
      MovesKeep(cfg, s, s', g);
    } else {
      PoolReportIgnored(cfg, s, e);
    }
  }

  /** The report of a step whose run was aborted is ignored. */
  lemma PoolReportIgnored(cfg: Config, s: Scheduler, e: Event)
    requires Inv(cfg, s) && e.PoolReports? && Possible(s, e)
    requires !(s.Has(e.scope) && s.Node(e.scope).state.Running?)
    ensures EventKeeps(cfg, s, Apply(cfg, s, e)) && Apply(cfg, s, e).faulted == s.faulted
  {
    var g := e.submitter;
    assert !s.runs[g].state.Running? by {
      assert !Live(s, g) || !s.runs[g].state.Running?;
    }
    LeftoverDropped(cfg, s, g);
    hide Moves, Core, Wakes;
    MovesKeep(cfg, s, DropTask(s, g), g);
  }
}
