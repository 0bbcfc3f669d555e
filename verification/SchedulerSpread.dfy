/** Which events let a genuine failure be overlooked, and what follows for runs without them. */
module SchedulerSpread {
  import opened Prelude
  import opened Scheduler
  import opened SchedulerInvariants
  import opened SchedulerPasses
  import opened SchedulerFinish
  import opened SchedulerSubmit
  import opened SchedulerEvents
  import opened SchedulerTheorems
  import opened SchedulerCascade

  // --- events that resume a running node ----------------------------------------------------

  /** The event ends the running step of `g` and queues the node again at once. */
  ghost predicate Resumes(s: Scheduler, e: Event, g: RunId) {
    && s.Running(g)
    && match e
       case InlineEnds(h, Returned(r)) => h == g && (s.Stale(s.runs[g]) || r.outcome.Continue?)
       case PoolReports(x, h, Returned(r)) => h == g && s.Has(x) && s.nodes[x] == g
           && (s.Stale(s.runs[g]) || r.outcome.Continue?)
       case PersistChecks(h) => h == g && s.Stale(s.runs[g])
       case PersistFinishes(h) => h == g && g in s.tasks && s.tasks[g].PersistReturned?
           && (s.Stale(s.runs[g]) || s.tasks[g].thenContinue)
       case _ => false
  }

  /** The state after: `g` is ready with the edges it had, and one dispatch is to follow. */
  ghost predicate Resumed(s: Scheduler, s': Scheduler, g: RunId) {
    && g in s.runs && g in s'.runs && s'.runs == s.runs[g := s'.runs[g]] && s'.nodes == s.nodes
    && s'.runs[g].state.Ready? && s'.runs[g].dependencyScopes == s.runs[g].dependencyScopes
         && s'.runs[g].scope == s.runs[g].scope
    && s'.callbacks == s.callbacks + multiset{DispatchReady}
  }

  lemma RetryResumes(s: Scheduler, g: RunId)
    requires g in s.runs
    ensures Resumed(s, RetryAfterEpochBump(s, g), g)
  {}

  lemma ContinueResumes(cfg: Config, s: Scheduler, s1: Scheduler, g: RunId)
    requires g in s.runs && g in s1.runs && s1 == s.(runs := s.runs[g := s1.runs[g]])
    requires s1.runs[g].dependencyScopes == s.runs[g].dependencyScopes && s1.runs[g].scope == s.runs[g].scope
    ensures Resumed(s, ContinueStep(cfg, s1, g), g)
  {}

  lemma AfterStepResumes(cfg: Config, s: Scheduler, g: RunId, result: StepResult)
    requires g in s.runs && (s.Stale(s.runs[g]) || result.outcome.Continue?)
    ensures Resumed(s, AfterStepSuccess(cfg, s, g, result), g)
  {
    hide RetryAfterEpochBump, ContinueStep, Resumed;
    if s.Stale(s.runs[g]) {
      RetryResumes(s, g);
    } else {
      ContinueResumes(cfg, s, SetRun(s, g, Accepted(s.runs[g], result)), g);
    }
  }

  lemma ResumeShape(cfg: Config, s: Scheduler, e: Event, g: RunId)
    requires Possible(s, e) && Resumes(s, e, g)
    ensures Resumed(s, Apply(cfg, s, e), g)
  {
    hide RetryAfterEpochBump, ContinueStep, Resumed, AfterStepSuccess;
    match e {
      case InlineEnds(_, Returned(r)) => AfterStepResumes(cfg, s, g, r);
      case PoolReports(_, _, Returned(r)) => AfterStepResumes(cfg, s, g, r);
      case PersistChecks(_) => RetryResumes(s, g);
      case PersistFinishes(_) =>
        assert s.runs == s.runs[g := s.runs[g]];
        if s.Stale(s.runs[g]) { RetryResumes(s, g); } else { ContinueResumes(cfg, s, s, g); }
    }
  }

  // --- what other events leave of a running node --------------------------------------------

  /** The run does not await, or a callback will re-examine it. */
  ghost predicate Attended(s: Scheduler, g: RunId)
    requires g in s.runs
  {
    Awaiting(s.runs[g]) ==> Warned(s, s.runs[g])
  }

  lemma SettleAttends(s: Scheduler, g: RunId, state: NodeState, error: Option<Failure>)
    requires g in s.runs && (state.Complete? || state.Failed? || state.Parked?)
    ensures Attended(Settle(s, g, state, error), g)
  {}

  lemma ParkAttends(s: Scheduler, g: RunId)
    requires g in s.runs && !Awaiting(s.runs[g])
    ensures Attended(ParkStep(s, g), g)
  {
    if s.runs[g].state.Running? {
      SettleAttends(DropTask(SetRun(s, g, s.runs[g].(generationAtSubmit := None, executionSealed := false)), g), g,
          Parked, None);
    }
    hide Settle;
  }

  lemma AfterStepAttends(cfg: Config, s: Scheduler, g: RunId, result: StepResult)
    requires s.Running(g) && !s.Stale(s.runs[g]) && !result.outcome.Continue?
    ensures Attended(AfterStepSuccess(cfg, s, g, result), g)
  {
    var s1 := SetRun(s, g, Accepted(s.runs[g], result));
    assert s1.runs[g].state.Running?;
    ParkAttends(s1, g);
    SettleAttends(DropTask(s1, g), g, Complete, None);
    hide Settle, ParkStep, ContinueStep, RetryAfterEpochBump, Accepted;
  }

  lemma RaiseAttends(s: Scheduler, g: RunId, error: Failure)
    requires g in s.runs && (s.runs[g].state.Running? || s.runs[g].state.Failed?)
    ensures Attended(RaiseIn(s, g, error), g) && Attended(RaiseIfRunning(s, g, error), g)
  {
    SettleAttends(DropTask(s, g), g, Failed, Some(error));
    hide Settle;
  }

  lemma DeferAttends(s: Scheduler, g: RunId, recovery: Recovery)
    requires g in s.runs && !Awaiting(s.runs[g])
    ensures Attended(RecoverOnDependency(s, g, recovery), g) && Attended(DemoteSoftly(s, g), g)
  {
    var s' := RecoverOnDependency(s, g, recovery);
    if s.runs[g].state.Running? && recovery.forceFresh {
      var cb := ForceFresh(recovery.dependencyScope, s.runs[g].priorityBand, recovery.stepKind, s.runs[g].bundle);
      assert cb in s'.callbacks && WakesUp(cb, s'.runs[g]);
    }
  }

  lemma PersistAttends(cfg: Config, s: Scheduler, g: RunId)
    requires g in s.runs && g in s.tasks && (s.runs[g].state.Running? || s.runs[g].state.Failed?)
    ensures s.tasks[g].PersistQueued? && !(s.Running(g) && s.Stale(s.runs[g])) ==> Attended(PersistCheck(s, g), g)
    ensures s.tasks[g].PersistCalling? ==> Attended(PersistWrite(s, g), g)
    ensures s.tasks[g].PersistReturned? && !(s.Running(g) && (s.Stale(s.runs[g]) || s.tasks[g].thenContinue)) ==>
            Attended(PersistFinish(cfg, s, g), g)
  {
    SettleAttends(DropTask(s, g), g, Complete, None);
    hide Settle, ContinueStep, RetryAfterEpochBump;
  }

  lemma RunWorkAttends(cfg: Config, s: Scheduler, e: Event)
    requires Inv(cfg, s) && Possible(s, e) && Disciplined(cfg, s, e)
    requires e.SealsInline? || e.BuildRaises? || e.InlineEnds? || e.SealsPool? || e.HandOffRaises?
    requires !Resumes(s, e, e.g)
    ensures e.g in Apply(cfg, s, e).runs && Attended(Apply(cfg, s, e), e.g)
  {
    var g := e.g;
    CoreRun(cfg, s, g);
    hide Core, Wakes, AfterStepSuccess, RaiseIn, RaiseIfRunning;
    match e {
      case SealsInline(_) => SealAttends(s, g);
      case SealsPool(_) => SealAttends(s, g);
      case BuildRaises(_, isAbort) => RaiseAttends(s, g, Failure(g, isAbort));
      case HandOffRaises(_, isAbort) => RaiseAttends(s, g, Failure(g, isAbort));
      case InlineEnds(_, end) =>
        if end.Raised? { RaiseAttends(s, g, Failure(g, end.isAbort)); }
            else { AfterStepAttends(cfg, s, g, end.result); }
    }
  }

  lemma SealAttends(s: Scheduler, g: RunId)
    requires g in s.runs && !Awaiting(s.runs[g])
    ensures Attended(SealInline(s, g), g) && Attended(SealPool(s, g), g)
  {}

  lemma DeferralAttends(cfg: Config, s: Scheduler, e: Event)
    requires Inv(cfg, s) && Possible(s, e) && (e.SoftWaits? || e.Defers? || e.PersistDefers?)
    ensures e.g in Apply(cfg, s, e).runs && Attended(Apply(cfg, s, e), e.g)
  {
    var g := e.g;
    CoreRun(cfg, s, g);
    hide Core, Wakes, DemoteSoftly, RecoverOnDependency, Attended;
    match e {
      case SoftWaits(_) => DeferAttends(s, g, Recovery(s.runs[g].scope, false, None));
      case Defers(_) => DeferAttends(s, g, s.tasks[g].recovery);
      case PersistDefers(_, recovery) => DeferAttends(s, g, recovery);
    }
  }

  lemma PersistWorkAttends(cfg: Config, s: Scheduler, e: Event)
    requires Inv(cfg, s) && Possible(s, e) && (e.PersistChecks? || e.PersistWrites? || e.PersistRaises?
             || e.PersistFinishes?)
    requires !Resumes(s, e, e.g)
    ensures e.g in Apply(cfg, s, e).runs && Attended(Apply(cfg, s, e), e.g)
  {
    var g := e.g;
    CoreRun(cfg, s, g);
    assert s.runs[g].state.Running? || s.runs[g].state.Failed?;
    hide Core, Wakes, RunOk, PersistCheck, PersistWrite, PersistFinish, RaiseIfRunning, Attended;
    if e.PersistRaises? { RaiseAttends(s, g, Failure(g, e.isAbort)); } else { PersistAttends(cfg, s, g); }
  }

  lemma ReportAttends(cfg: Config, s: Scheduler, e: Event)
    requires Inv(cfg, s) && e.PoolReports? && Possible(s, e) && Disciplined(cfg, s, e) && !Resumes(s, e, e.submitter)
    ensures e.submitter in Apply(cfg, s, e).runs && Attended(Apply(cfg, s, e), e.submitter)
  {
    var g := e.submitter;
    CoreRun(cfg, s, g);
    if s.Has(e.scope) && s.Node(e.scope).state.Running? {
      hide Core, Wakes, AfterStepSuccess, RaiseIn, RunOk;
      match e.end {
        case Raised(isAbort) => RaiseAttends(s, g, Failure(g, isAbort));
        case Returned(result) => AfterStepAttends(cfg, s, g, result);
      }
    } else {
      assert !s.runs[g].state.Running? by { assert !Live(s, g) || !s.runs[g].state.Running?; }
      hide Core, Wakes;
    }
  }

  /** A section on one run that leaves it attended overlooks nothing. */
  lemma AttendedCascades(cfg: Config, s: Scheduler, s': Scheduler, g: RunId)
    requires Inv(cfg, s) && Cascades(s) && Moves(cfg, s, s', g) && Attended(s', g)
    ensures Cascades(s')
  {
    CoreIsKeyed(cfg, s);
    hide Core, Wakes, Inv;
    TouchKeepsCascades(s, s', g);
  }

  // --- exactly which events overlook a failure ----------------------------------------------

  /** The event queues a node again although a dependency failed genuinely while its step ran,
      nothing pending will re-examine it and no other dependency is still going. */
  ghost predicate Overlooks(s: Scheduler, e: Event) {
    exists g {:trigger Resumes(s, e, g)} ::
        Resumes(s, e, g) && Blamed(s, s.runs[g]) && !Warned(s, s.runs[g]) && !Held(s, s.runs[g])
  }

  lemma ResumedIff(cfg: Config, s: Scheduler, s': Scheduler, g: RunId)
    requires Inv(cfg, s) && s.Running(g) && Cascades(s) && Resumed(s, s', g) && Touches(s, s', g)
    ensures Cascades(s') <==> !Blamed(s, s.runs[g]) || Warned(s, s.runs[g]) || Held(s, s.runs[g])
  {
    CoreIsKeyed(cfg, s);
    CoreRun(cfg, s, g);
    var run := s.runs[g];
    assert forall d {:trigger s'.HardFailedAt(d)} :: s'.HardFailedAt(d) <==> s.HardFailedAt(d);
    assert forall d {:trigger StillGoing(s', d)} :: StillGoing(s', d) <==> StillGoing(s, d);
    ResumedWarnings(s, s', g);
    hide Core, Wakes, Inv, RunOk;
    assert CascadeOk(s', g) <==> !Blamed(s, run) || Warned(s, run) || Held(s, run) by { SameVerdict(s, s', g); }
    if CascadeOk(s', g) { TouchKeepsCascades(s, s', g); }
  }

  lemma ResumedWarnings(s: Scheduler, s': Scheduler, g: RunId)
    requires Resumed(s, s', g)
    ensures Warned(s', s'.runs[g]) <==> Warned(s, s.runs[g])
  {
    var run, run' := s.runs[g], s'.runs[g];
    if Warned(s, run) {
      var cb :| cb in s.callbacks && WakesUp(cb, run);
      assert cb in s'.callbacks && WakesUp(cb, run');
    }
    if Warned(s', run') {
      var cb :| cb in s'.callbacks && WakesUp(cb, run');
      assert cb != DispatchReady;
      assert cb in s.callbacks && WakesUp(cb, run);
    }
  }

  lemma SameVerdict(s: Scheduler, s': Scheduler, g: RunId)
    requires Resumed(s, s', g) && (Warned(s', s'.runs[g]) <==> Warned(s, s.runs[g]))
    requires forall d {:trigger s'.HardFailedAt(d)} :: s'.HardFailedAt(d) <==> s.HardFailedAt(d)
    requires forall d {:trigger StillGoing(s', d)} :: StillGoing(s', d) <==> StillGoing(s, d)
    ensures CascadeOk(s', g) <==> !Blamed(s, s.runs[g]) || Warned(s, s.runs[g]) || Held(s, s.runs[g])
  {
    var run, run' := s.runs[g], s'.runs[g];
    assert Blamed(s', run') <==> Blamed(s, run) by {
      if Blamed(s, run) { var d :| d in run.dependencyScopes && s.HardFailedAt(d); assert s'.HardFailedAt(d); }
    }
    assert Held(s', run') <==> Held(s, run) by {
      if Held(s, run) { var d :| d in run.dependencyScopes && StillGoing(s, d); assert StillGoing(s', d); }
    }
  }

  /** The one run an event of this kind works on. */
  predicate WorksOn(e: Event, g: RunId) {
    match e
    case PoolReports(_, h, _) => h == g
    case SealsInline(h) => h == g
    case BuildRaises(h, _) => h == g
    case InlineEnds(h, _) => h == g
    case SealsPool(h) => h == g
    case HandOffRaises(h, _) => h == g
    case SoftWaits(h) => h == g
    case Defers(h) => h == g
    case PersistChecks(h) => h == g
    case PersistWrites(h) => h == g
    case PersistRaises(h, _) => h == g
    case PersistDefers(h, _) => h == g
    case PersistFinishes(h) => h == g
    case _ => false
  }

  lemma WorkMoves(cfg: Config, s: Scheduler, e: Event, g: RunId)
    requires Inv(cfg, s) && Possible(s, e) && Disciplined(cfg, s, e) && WorksOn(e, g)
    ensures Moves(cfg, s, Apply(cfg, s, e), g)
  {
    hide Inv, Apply, Possible, Moves;
    if e.PoolReports? {
      ReportMoves(cfg, s, e);
    } else if e.SealsInline? || e.BuildRaises? || e.InlineEnds? || e.SealsPool? || e.HandOffRaises? {
      RunWorkMoves(cfg, s, e);
    } else if e.SoftWaits? || e.Defers? || e.PersistDefers? {
      DeferralMoves(cfg, s, e);
    } else {
      PersistMoves(cfg, s, e);
    }
  }

  lemma ReportMoves(cfg: Config, s: Scheduler, e: Event)
    requires Inv(cfg, s) && e.PoolReports? && Possible(s, e) && Disciplined(cfg, s, e)
    ensures Moves(cfg, s, Apply(cfg, s, e), e.submitter)
  {
    var g := e.submitter;
    CoreRun(cfg, s, g);
    if s.Has(e.scope) && s.Node(e.scope).state.Running? {
      assert s.runs[s.nodes[e.scope]].scope == e.scope;
      hide Core, Wakes, Moves, AfterStepSuccess, RaiseIn, RunOk;
      match e.end {
        case Raised(isAbort) => RaiseKeeps(cfg, s, g, isAbort);
        case Returned(result) => AfterStepKeeps(cfg, s, g, result);
      }
    } else {
      assert !s.runs[g].state.Running? by { assert !Live(s, g) || !s.runs[g].state.Running?; }
      LeftoverDropped(cfg, s, g);
      hide Core, Wakes, Moves;
    }
  }

  lemma WorkAttends(cfg: Config, s: Scheduler, e: Event, g: RunId)
    requires Inv(cfg, s) && Possible(s, e) && Disciplined(cfg, s, e) && WorksOn(e, g) && !Resumes(s, e, g)
    ensures g in Apply(cfg, s, e).runs && Attended(Apply(cfg, s, e), g)
  {
    hide Inv, Apply, Possible, Attended;
    if e.PoolReports? {
      ReportAttends(cfg, s, e);
    } else if e.SealsInline? || e.BuildRaises? || e.InlineEnds? || e.SealsPool? || e.HandOffRaises? {
      RunWorkAttends(cfg, s, e);
    } else if e.SoftWaits? || e.Defers? || e.PersistDefers? {
      DeferralAttends(cfg, s, e);
    } else {
      PersistWorkAttends(cfg, s, e);
    }
  }

  /** Events on one run: a failure is overlooked exactly as `Overlooks` says. */
  lemma WorkCascadesIff(cfg: Config, s: Scheduler, e: Event, g: RunId)
    requires Inv(cfg, s) && Possible(s, e) && Disciplined(cfg, s, e) && Cascades(s) && WorksOn(e, g)
    ensures Cascades(Apply(cfg, s, e)) <==> !Overlooks(s, e)
  {
    WorkMoves(cfg, s, e, g);
    OnlySubjectResumes(s, e, g);
    if Resumes(s, e, g) {
      ResumeShape(cfg, s, e, g);
      hide Apply, Possible, Inv, Resumed;
      ResumedIff(cfg, s, Apply(cfg, s, e), g);
    } else {
      WorkAttends(cfg, s, e, g);
      hide Apply, Possible, Inv;
      AttendedCascades(cfg, s, Apply(cfg, s, e), g);
    }
  }

  lemma OnlySubjectResumes(s: Scheduler, e: Event, g: RunId)
    requires WorksOn(e, g)
    ensures forall h {:trigger Resumes(s, e, h)} :: Resumes(s, e, h) ==> h == g
  {}

  /** Callers, aborts, callbacks and wipes overlook nothing. */
  lemma CallerCascades(cfg: Config, s: Scheduler, e: Event)
    requires !s.faulted && Inv(cfg, s) && Possible(s, e) && Disciplined(cfg, s, e) && Cascades(s)
    requires e.Submits? || e.Ensures? || e.WakesParked? || e.PlanningRaises? || e.Dispatches? || e.RunsIdle?
             || e.RunsCallback? || e.Wipes? || e.Aborts?
    ensures Cascades(Apply(cfg, s, e))
  {
    InvIsCoreAndWakes(cfg, s);
    CoreIsKeyed(cfg, s);
    hide Inv, Core, Wakes, Submit, EnsureSubmit, Dispatch, RunCallback, Replace, RefreshEach, Wipe, Abort, Cascades,
        Keyed;
    match e {
      case Submits(req, plan, o) => SubmitCascades(cfg, s, req, plan, o);
      case Ensures(req, plan, o) => EnsureCascades(cfg, s, req, plan, o);
      case WakesParked(req, plan, o) => SubmitCascades(cfg, s, req, plan, o);
      case PlanningRaises(scope) => ReplaceCascades(cfg, s, scope);
      case Dispatches(o) => DispatchCascades(cfg, s, o, 0);
      case RunsIdle(o) =>
        RefreshEachKeepsCascades(cfg, s, s.order, None);
        RefreshEachKeeps(cfg, s, s.order, None);
        CoreIsKeyed(cfg, RefreshEach(s, s.order, None));
        DispatchCascades(cfg, RefreshEach(s, s.order, None), o, 0);
      case RunsCallback(cb, plan, o) => CallbackCascades(cfg, s, cb, plan, o);
      case Wipes(scopes) => WipeCascades(s, scopes);
      case Aborts(scope, isAbort, expected) => AbortCascades(cfg, s, scope, isAbort, expected);
    }
  }

  lemma SubmitCascades(cfg: Config, s: Scheduler, req: Request, plan: Plan, o: DispatchOracle)
    requires !s.faulted && Inv(cfg, s) && PlanOk(cfg, req, plan) && Cascades(s)
    ensures Cascades(Submit(cfg, s, req, plan, o))
  {
    InvIsCoreAndWakes(cfg, s);
    SubmitPrepareKeeps(cfg, s, req, plan);
    SubmitPrepareCascades(cfg, s, req, plan);
    CoreIsKeyed(cfg, SubmitPrepare(cfg, s, req, plan));
    hide Inv, Core, Wakes, SubmitPrepare, Dispatch, Cascades, Keyed;
    DispatchCascades(cfg, SubmitPrepare(cfg, s, req, plan), o, 0);
  }

  lemma EnsureCascades(cfg: Config, s: Scheduler, req: Request, plan: Plan, o: DispatchOracle)
    requires !s.faulted && Inv(cfg, s) && PlanOk(cfg, req, plan) && Cascades(s)
    ensures Cascades(EnsureSubmit(cfg, s, req, plan, o))
  {
    InvIsCoreAndWakes(cfg, s);
    if s.Has(req.scope) && s.Node(req.scope).IsTerminal() && !req.forceFresh {
      ReplaceKeeps(cfg, s, req.scope);
      ReplaceCascades(cfg, s, req.scope);
      hide Core, Wakes, Replace, Submit, Cascades;
      SubmitCascades(cfg, Replace(s, req.scope), req, plan, o);
    } else {
      hide Inv, Core, Wakes, Submit, Cascades;
      SubmitCascades(cfg, s, req, plan, o);
    }
  }

  lemma CallbackCascades(cfg: Config, s: Scheduler, cb: Callback, plan: Plan, o: DispatchOracle)
    requires !s.faulted && Inv(cfg, s) && Cascades(s) && cb in s.callbacks
             && (cb.ForceFresh? ==> PlanOk(cfg, CallbackRequest(cb), plan))
    ensures Cascades(RunCallback(cfg, s, cb, plan, o))
  {
    InvIsCoreAndWakes(cfg, s);
    CoreIsKeyed(cfg, s);
    match cb {
      case DispatchReady =>
        DispatchDemandCascades(s);
        hide Inv, Core, Wakes, Dispatch, Cascades;
        DispatchCascades(cfg, Consume(s, cb), o, 0);
      case DependencyTerminal(x) => DependencyTerminalCascades(cfg, s, x);
      case ForceFresh(_, _, _, _) =>
        var s1 := SubmitPrepare(cfg, s, CallbackRequest(cb), plan);
        ForceFreshCascades(cfg, s, cb, plan);
        SubmitPrepareKeeps(cfg, s, CallbackRequest(cb), plan);
        CoreIsKeyed(cfg, s1);
        hide Inv, Core, Wakes, SubmitPrepare, Dispatch, Cascades;
        DispatchCascades(cfg, Consume(s1, cb), o, 0);
    }
  }

  /** A dispatch callback warns nobody, so nobody misses it. */
  lemma DispatchDemandCascades(s: Scheduler)
    requires Cascades(s)
    ensures Cascades(Consume(s, DispatchReady))
  {
    var s' := Consume(s, DispatchReady);
    forall g | g in s'.runs ensures CascadeOk(s', g) {
      assert CascadeOk(s, g);
      var run := s.runs[g];
      SameBlame(s, s', run);
      if Awaiting(run) && Blamed(s, run) {
        if Warned(s, run) {
          var cb :| cb in s.callbacks && WakesUp(cb, run);
          assert cb in s'.callbacks;
        } else {
          var d :| d in run.dependencyScopes && StillGoing(s, d);
          assert StillGoing(s', d);
        }
      }
    }
  }

  lemma WipeCascades(s: Scheduler, scopes: set<ComputeScope>)
    requires Cascades(s)
    ensures Cascades(Wipe(s, scopes))
  {
    var s' := Wipe(s, scopes);
    forall g | g in s'.runs ensures CascadeOk(s', g) {
      assert CascadeOk(s, g);
      SameTable(s, s', g);
    }
  }

  lemma AbortCascades(cfg: Config, s: Scheduler, scope: ComputeScope, isAbort: bool, expected: Option<RunId>)
    requires Inv(cfg, s) && Cascades(s) && AbortSpares(s, scope)
    ensures Cascades(Abort(s, scope, isAbort, expected))
  {
    if s.Has(scope) && !s.Node(scope).IsTerminal() && (expected.Some? ==> expected.value == s.nodes[scope]) {
      var g := s.nodes[scope];
      AbortKeeps(cfg, s, g, isAbort);
      SettleAttends(s, g, Failed, Some(Failure(g, isAbort)));
      hide Settle, Moves;
      AttendedCascades(cfg, s, Fail(s, g, Failure(g, isAbort)), g);
    }
  }

  /** For every event: a genuine failure that was noticed stays noticed, exactly unless the event
      resumes a node over it. */
  lemma EventCascadesIff(cfg: Config, s: Scheduler, e: Event)
    requires !s.faulted && Inv(cfg, s) && Possible(s, e) && Disciplined(cfg, s, e) && Cascades(s)
    ensures Cascades(Apply(cfg, s, e)) <==> !Overlooks(s, e)
  {
    hide Inv, Apply, Possible, Disciplined, Cascades;
    if e.Submits? || e.Ensures? || e.WakesParked? || e.PlanningRaises? || e.Dispatches? || e.RunsIdle?
        || e.RunsCallback? || e.Wipes? || e.Aborts? {
      CallerCascades(cfg, s, e);
      assert forall g {:trigger Resumes(s, e, g)} :: !Resumes(s, e, g);
    } else {
      WorkCascadesIff(cfg, s, e, if e.PoolReports? then e.submitter else e.g);
    }
  }

  // --- what follows for runs ----------------------------------------------------------------

  /** In every run without such an event no genuine failure is ever overlooked. */
  lemma {:induction false} FailuresAreNeverOverlooked(cfg: Config, states: seq<Scheduler>, events: seq<Event>, i: nat)
    requires IsRun(cfg, states, events) && i < |states|
    requires forall k {:trigger events[k]} :: 0 <= k < |events| ==> !Overlooks(states[k], events[k])
    ensures Cascades(states[i])
  {
    if i == 0 {
      InitialCascades();
      hide Cascades, Overlooks, Apply, Possible, Disciplined;
      assert states[0] == INITIAL;
    } else {
      assert |states| == |events| + 1 by { hide Apply, Possible, Disciplined, Overlooks; }
      hide Inv, Guarantees, Apply, Possible, Disciplined, IsRun, Cascades, Overlooks;
      FailuresAreNeverOverlooked(cfg, states, events, i - 1);
      EveryRunIsSafe(cfg, states, events, i - 1);
      RunStep(cfg, states, events, i);
      EventCascadesIff(cfg, states[i - 1], events[i - 1]);
    }
  }

  lemma InitialCascades()
    ensures Cascades(INITIAL)
  {}

  /** A standstill nobody has to repair a failure for. */
  ghost predicate Deliberate(s: Scheduler, x: ComputeScope) {
    || !s.Has(x)
    || s.Node(x).state.Parked? || s.AbortFailedAt(x)
    || (s.Node(x).state.WaitingDeps? && s.Node(x).awaitsExternalWake)
  }

  /** Then, in a quiescent state, what a waiting node is blocked by is never a genuine failure:
      the chain of incomplete dependencies can be followed to an unplanned, parked, aborted or
      deliberately deferred scope. */
  lemma {:induction false} FailuresNeverBlock(cfg: Config, s: Scheduler, x: ComputeScope)
          returns (path: seq<ComputeScope>)
    requires Inv(cfg, s) && Cascades(s) && Quiescent(s) && s.Has(x) && s.Node(x).state.WaitingDeps?
    ensures BlockedChain(s, path) && path[0] == x && Deliberate(s, path[|path| - 1])
    decreases cfg.rank(x)
  {
    var run := s.Node(x);
    if run.awaitsExternalWake {
      path := [x];
    } else {
      var g := s.nodes[x];
      assert WakeOk(s, g) && RunOk(cfg, s, g) && CascadeOk(s, g);
      assert run.scope == x;
      var d :| d in run.dependencyScopes && !s.CompleteAt(d);
      if s.HardFailedAt(d) {
        assert Blamed(s, run) && !Warned(s, run);
        d :| d in run.dependencyScopes && StillGoing(s, d);
      }
      var rest := [d];
      if s.Has(d) && s.Node(d).state.WaitingDeps? {
        rest := FailuresNeverBlock(cfg, s, d);
      } else if s.Has(d) {
        EndsDeliberately(cfg, s, d);
      }
      path := [x] + rest;
      assert path[1..] == rest;
    }
  }

  lemma EndsDeliberately(cfg: Config, s: Scheduler, d: ComputeScope)
    requires Inv(cfg, s) && Quiescent(s) && s.Has(d) && !s.CompleteAt(d) && !s.Node(d).state.WaitingDeps?
             && !s.HardFailedAt(d)
    ensures Deliberate(s, d)
  {
    assert RunOk(cfg, s, s.nodes[d]);
    assert !s.Running(s.nodes[d]);
    assert d !in s.readyQueue && !s.IsReady(d);
  }

  /** From any state with a running node, nothing else to do and a dependency that failed while
      its step ran, a step that says continue and the dispatch that follows leave the node
      waiting on the failure with nothing left that could fail it. */
  lemma LateFailureStrands(cfg: Config, s: Scheduler, g: RunId, payload: Option<Wire>, plan: Plan, o: DispatchOracle)
    returns (s1: Scheduler, s2: Scheduler)
    requires !s.faulted && Inv(cfg, s) && s.Running(g) && !s.Stale(s.runs[g]) && g in s.tasks && s.tasks[g].PoolWork?
    requires s.callbacks == multiset{} && s.readyQueue == [] && forall h :: h in s.runs && h != g ==> !s.Running(h)
    requires Blamed(s, s.runs[g])
    ensures var report := PoolReports(s.runs[g].scope, g, Returned(StepResult(Continue, payload, false, None)));
            && Possible(s, report) && Disciplined(cfg, s, report) && s1 == Apply(cfg, s, report)
    ensures DispatchReady in s1.callbacks && s2 == RunCallback(cfg, s1, DispatchReady, plan, o)
    ensures Quiescent(s2) && g in s2.runs && s2.runs[g].state.WaitingDeps? && Blamed(s2, s2.runs[g])
  {
    var result := StepResult(Continue, payload, false, None);
    OwnReport(cfg, s, g, result);
    AfterStepResumes(cfg, s, g, result);
    ContinueQueues(cfg, s, g, result);
    hide Inv, AfterStepSuccess, CompletePoolStep, Possible, Disciplined;
    s1 := AfterStepSuccess(cfg, s, g, result);
    s2 := RunCallback(cfg, s1, DispatchReady, plan, o);
    var d :| d in s.runs[g].dependencyScopes && s.HardFailedAt(d);
    ResumedAlone(s, s1, g, d);
    hide Resumed, Blamed, Dispatch;
    SweepDemotes(cfg, Consume(s1, DispatchReady), s.runs[g].scope, g, d, o);
  }

  lemma ResumedAlone(s: Scheduler, s1: Scheduler, g: RunId, d: ComputeScope)
    requires Resumed(s, s1, g) && s.HardFailedAt(d) && s.Running(g) && s.callbacks == multiset{}
    requires forall h :: h in s.runs && h != g ==> !s.Running(h)
    ensures s1.HardFailedAt(d) && s1.callbacks == multiset{DispatchReady} && forall h :: h in s1.runs ==> !s1.Running(h)
  {}

  /** Such a step overlooks the failure when no other dependency is still going. */
  lemma ContinueOverlooks(s: Scheduler, g: RunId, payload: Option<Wire>)
    requires s.Running(g) && s.Has(s.runs[g].scope) && s.nodes[s.runs[g].scope] == g
    requires Blamed(s, s.runs[g]) && !Warned(s, s.runs[g]) && !Held(s, s.runs[g])
    ensures Overlooks(s, PoolReports(s.runs[g].scope, g, Returned(StepResult(Continue, payload, false, None))))
  {
    assert Resumes(s, PoolReports(s.runs[g].scope, g, Returned(StepResult(Continue, payload, false, None))), g);
    hide Blamed, Warned, Held, Resumes;
  }

  lemma OwnReport(cfg: Config, s: Scheduler, g: RunId, result: StepResult)
    requires Inv(cfg, s) && s.Running(g) && g in s.tasks && s.tasks[g].PoolWork? && result.waitRecovery.None?
    ensures s.runs[g].scope in s.nodes && s.nodes[s.runs[g].scope] == g
    ensures Possible(s, PoolReports(s.runs[g].scope, g, Returned(result)))
            && Disciplined(cfg, s, PoolReports(s.runs[g].scope, g, Returned(result)))
    ensures Apply(cfg, s, PoolReports(s.runs[g].scope, g, Returned(result))) == AfterStepSuccess(cfg, s, g, result)
  {
    CoreRun(cfg, s, g);
    assert Live(s, g);
    hide AfterStepSuccess;
  }

  lemma ContinueQueues(cfg: Config, s: Scheduler, g: RunId, result: StepResult)
    requires g in s.runs && !s.Stale(s.runs[g]) && result.outcome.Continue? && s.readyQueue == []
    ensures AfterStepSuccess(cfg, s, g, result).readyQueue == [s.runs[g].scope]
  {}

  lemma SweepDemotes(cfg: Config, s: Scheduler, x: ComputeScope, g: RunId, d: ComputeScope, o: DispatchOracle)
    requires !s.faulted && s.readyQueue == [x] && s.Has(x) && s.nodes[x] == g && s.runs[g].state.Ready?
             && s.callbacks == multiset{}
    requires d in s.runs[g].dependencyScopes && s.HardFailedAt(d) && forall h :: h in s.runs ==> !s.Running(h)
    ensures var s' := Dispatch(cfg, s, o, 0);
            Quiescent(s') && g in s'.runs && s'.runs[g].state.WaitingDeps? && Blamed(s', s'.runs[g])
  {
    var s' := SetRun(s.(readyQueue := []), g, s.runs[g].(state := WaitingDeps, awaitsExternalWake := false));
    assert !s.CompleteAt(d);
    assert s.readyQueue[1..] == [];
    assert Pick(s, o.admit, 0, 1) == (s', None);
    assert Dispatch(cfg, s, o, 0) == s';
    assert s'.HardFailedAt(d);
  }
}
