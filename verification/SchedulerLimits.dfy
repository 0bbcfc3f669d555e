/** No stall: ready work always has a dispatch pass coming, as long as nothing goes quiet. */
module SchedulerLimits {
  import opened Prelude
  import opened Scheduler
  import opened SchedulerEvents
  import opened SchedulerTheorems

  // --- no stall -----------------------------------------------------------------------------

  /** Ready work is never left without something that will lead to another dispatch pass. */
  ghost predicate Busy(s: Scheduler) {
    s.readyQueue != [] ==> s.callbacks != multiset{} || SomethingRuns(s)
  }

  ghost predicate SomethingRuns(s: Scheduler) {
    exists g :: g in s.runs && s.Running(g)
  }

  ghost predicate OpenGates(o: DispatchOracle) {
    forall x, n :: o.admit(x, n)
  }

  /** An ungated sweep over the whole queue only comes back empty-handed from an empty queue. */
  lemma {:induction false} OpenSweepDrains(s: Scheduler, admit: (ComputeScope, nat) -> bool, round: nat, budget: nat)
    requires forall x, n :: admit(x, n)
    requires budget >= |s.readyQueue|
    ensures Pick(s, admit, round, budget).1.None? ==> Pick(s, admit, round, budget).0.readyQueue == []
    decreases budget
  {
    if budget != 0 && s.readyQueue != [] {
      var scope := s.readyQueue[0];
      var s1 := s.(readyQueue := s.readyQueue[1..]);
      if !s.IsReady(scope) {
        OpenSweepDrains(s1, admit, round, budget - 1);
      } else if !s.DepsComplete(s.Node(scope)) {
        OpenSweepDrains(SetRun(s1, s.nodes[scope], s.Node(scope).(state := WaitingDeps, awaitsExternalWake := false)),
            admit, round, budget - 1);
      } else {
        assert admit(scope, round);
      }
    }
  }

  /** Although a pass starts at most one pool step, it leaves ready nodes behind only when it
      did start one. */
  lemma {:induction false} DispatchDrains(cfg: Config, s: Scheduler, o: DispatchOracle, round: nat)
    requires cfg.hasPool && OpenGates(o)
    ensures Dispatch(cfg, s, o, round).faulted || Dispatch(cfg, s, o, round).readyQueue == []
            || SomethingRuns(Dispatch(cfg, s, o, round))
    decreases |s.readyQueue|
  {
    if s.readyQueue != [] {
      OpenSweepDrains(s, o.admit, round, |s.readyQueue|);
      var (s1, pick) := Pick(s, o.admit, round, |s.readyQueue|);
      if pick.Some? { DispatchDrainsAfter(cfg, s, s1, pick.value, o, round); }
    }
  }

  lemma {:induction false} DispatchDrainsAfter(cfg: Config, s: Scheduler, s1: Scheduler, scope: ComputeScope,
          o: DispatchOracle, round: nat)
    requires cfg.hasPool && OpenGates(o) && s.readyQueue != []
    requires Pick(s, o.admit, round, |s.readyQueue|) == (s1, Some(scope)) && s1.IsReady(scope)
    requires |s1.readyQueue| < |s.readyQueue|
    ensures Dispatch(cfg, s, o, round).faulted || Dispatch(cfg, s, o, round).readyQueue == []
            || SomethingRuns(Dispatch(cfg, s, o, round))
    decreases |s.readyQueue|, 0
  {
    var g := s1.nodes[scope];
    var run := s1.runs[g];
    if |cfg.Steps(scope)| <= run.profileStepIndex {
    } else if o.satisfied(scope, round) {
      hide Pick;
      DispatchDrains(cfg, ShortCircuit(s1, g, o.hydrated(scope, round)), o, round + 1);
    } else if cfg.Steps(scope)[run.profileStepIndex].isInline {
      hide Pick;
      if !s1.WirelessDependency(run) { DispatchDrains(cfg, Begin(s1, g, InlineBuild), o, round + 1); }
    } else {
      assert Begin(s1, g, PoolFlush).Running(g);
    }
  }

  /** The events after which the source deliberately schedules nothing. */
  ghost predicate Quiet(s: Scheduler, e: Event) {
    match e
    case InlineEnds(g, Returned(r)) => r.outcome.Park?
    case PoolReports(_, _, Returned(r)) => r.outcome.Park?
    case SoftWaits(_) => true
    case Defers(g) => g in s.tasks && s.tasks[g].Defer? && !s.tasks[g].recovery.forceFresh
    case PersistDefers(_, recovery) => !recovery.forceFresh
    case _ => false
  }

  ghost predicate Ungated(e: Event) {
    match e
    case Submits(_, _, o) => OpenGates(o)
    case Ensures(_, _, o) => OpenGates(o)
    case WakesParked(_, _, o) => OpenGates(o)
    case Dispatches(o) => OpenGates(o)
    case RunsIdle(o) => OpenGates(o)
    case RunsCallback(_, _, o) => OpenGates(o)
    case _ => true
  }

  /** A section that leaves run `g` as the only changed run and either changes nothing else
      that matters or schedules a callback. */
  ghost predicate Stirs(s: Scheduler, s': Scheduler) {
    || s'.callbacks != multiset{}
    || (s'.readyQueue == s.readyQueue && s'.callbacks == s.callbacks && forall g :: g in s.runs && s.Running(g) ==>
         s'.Running(g) && g in s'.runs)
  }

  lemma StirsKeepsBusy(s: Scheduler, s': Scheduler)
    requires Busy(s) && Stirs(s, s')
    ensures Busy(s')
  {
    if s'.readyQueue != [] && s'.callbacks == multiset{} {
      var g :| g in s.runs && s.Running(g);
      assert s'.Running(g);
    }
  }

  lemma SettleStirs(s: Scheduler, g: RunId, state: NodeState, error: Option<Failure>)
    requires g in s.runs && !state.Parked?
    ensures Settle(s, g, state, error).callbacks != multiset{}
  {
    assert DependencyTerminal(s.runs[g].scope) in Settle(s, g, state, error).callbacks;
  }

  lemma RequeueStirs(cfg: Config, s: Scheduler, g: RunId)
    requires g in s.runs
    ensures RetryAfterEpochBump(s, g).callbacks != multiset{} && ContinueStep(cfg, s, g).callbacks != multiset{}
  {
    assert DispatchReady in RetryAfterEpochBump(s, g).callbacks;
    assert DispatchReady in ContinueStep(cfg, s, g).callbacks;
  }

  lemma AfterStepStirs(cfg: Config, s: Scheduler, g: RunId, result: StepResult)
    requires g in s.runs && !result.outcome.Park?
    ensures Stirs(s, AfterStepSuccess(cfg, s, g, result))
  {
    hide Stirs, ActOn, RetryAfterEpochBump, Accepted;
    if s.Stale(s.runs[g]) {
      RequeueStirs(cfg, s, g);
      CallbacksStir(s, RetryAfterEpochBump(s, g));
    } else {
      ActStirs(cfg, s, g, result);
    }
  }

  lemma ActStirs(cfg: Config, s: Scheduler, g: RunId, result: StepResult)
    requires g in s.runs && !result.outcome.Park?
    ensures Stirs(s, ActOn(cfg, SetRun(s, g, Accepted(s.runs[g], result)), g, result))
  {
    var run := Accepted(s.runs[g], result);
    var s1 := SetRun(s, g, run);
    assert run.state == s.runs[g].state;
    hide Stirs, Settle, ContinueStep, ParkStep, Accepted;
    match result.outcome
    case Continue =>
      RequeueStirs(cfg, s1, g);
      CallbacksStir(s, ContinueStep(cfg, s1, g));
    case WaitDeps => StayStirs(s, g, run, if result.waitRecovery.None? then SoftWait
        else Defer(result.waitRecovery.value));
    case Persist => StayStirs(s, g, run, PersistQueued(result.persistThenContinue));
    case Done =>
      SettleStirs(DropTask(s1, g), g, Complete, None);
      CallbacksStir(s, CompleteRun(s1, g));
  }

  lemma CallbacksStir(s: Scheduler, s': Scheduler)
    requires s'.callbacks != multiset{}
    ensures Stirs(s, s')
  {
  }

  /** Rewriting a run without changing its state, and its task, stirs. */
  lemma StayStirs(s: Scheduler, g: RunId, run: NodeRun, task: Task)
    requires g in s.runs && run.state == s.runs[g].state
    ensures Stirs(s, SetTask(SetRun(s, g, run), g, task))
  {
  }

  lemma RaiseStirs(s: Scheduler, g: RunId, error: Failure)
    requires g in s.runs
    ensures Stirs(s, RaiseIn(s, g, error)) && Stirs(s, Fail(s, g, error)) && Stirs(s, DropTask(s, g))
  {
    if !s.runs[g].state.Failed? {
      SettleStirs(DropTask(s, g), g, Failed, Some(error));
      SettleStirs(s, g, Failed, Some(error));
    }
    hide Settle;
  }

  lemma PersistStirs(cfg: Config, s: Scheduler, g: RunId)
    requires g in s.runs && g in s.tasks
    ensures s.tasks[g].PersistQueued? ==> Stirs(s, PersistCheck(s, g))
    ensures s.tasks[g].PersistCalling? ==> Stirs(s, PersistWrite(s, g))
    ensures s.tasks[g].PersistReturned? ==> Stirs(s, PersistFinish(cfg, s, g))
  {
    RequeueStirs(cfg, s, g);
    SettleStirs(DropTask(s, g), g, Complete, None);
    TaskStirs(s, g);
    hide Settle, ContinueStep, RetryAfterEpochBump, Stirs;
    if s.tasks[g].PersistQueued? && PersistCheck(s, g).callbacks != multiset{} { CallbacksStir(s, PersistCheck(s, g)); }
    if s.tasks[g].PersistReturned? && PersistFinish(cfg, s, g).callbacks != multiset{} {
        CallbacksStir(s, PersistFinish(cfg, s, g)); }
  }

  lemma TaskStirs(s: Scheduler, g: RunId)
    requires g in s.runs
    ensures Stirs(s, DropTask(s, g))
    ensures forall task {:trigger SetTask(s, g, task)} :: Stirs(s, SetTask(s, g, task))
    ensures g in s.tasks && s.tasks[g].PersistCalling? ==> Stirs(s, PersistWrite(s, g))
  {
  }

  lemma RecoverStirs(s: Scheduler, g: RunId, recovery: Recovery)
    requires g in s.runs && recovery.forceFresh
    ensures Stirs(s, RecoverOnDependency(s, g, recovery))
  {
    if s.runs[g].state.Running? {
      assert ForceFresh(recovery.dependencyScope, s.runs[g].priorityBand, recovery.stepKind, s.runs[g].bundle)
             in RecoverOnDependency(s, g, recovery).callbacks;
    }
  }

  lemma RunEventStirs(cfg: Config, s: Scheduler, e: Event)
    requires Possible(s, e) && !Quiet(s, e)
    requires e.SealsInline? || e.BuildRaises? || e.InlineEnds? || e.SealsPool? || e.HandOffRaises? || e.PoolReports?
    ensures Stirs(s, Apply(cfg, s, e))
  {
    hide AfterStepSuccess, RaiseIn, Stirs;
    match e {
      case SealsInline(g) => SealStirs(s, g);
      case SealsPool(g) => SealStirs(s, g);
      case BuildRaises(g, isAbort) => RaiseStirs(s, g, Failure(g, isAbort));
      case HandOffRaises(g, isAbort) => RaiseStirs(s, g, Failure(g, isAbort));
      case InlineEnds(g, end) =>
        if end.Raised? { RaiseStirs(s, g, Failure(g, end.isAbort)); } else { AfterStepStirs(cfg, s, g, end.result); }
      case PoolReports(_, _, _) => ReportStirs(cfg, s, e);
    }
  }

  lemma SealStirs(s: Scheduler, g: RunId)
    requires g in s.runs
    ensures Stirs(s, SealInline(s, g)) && Stirs(s, SealPool(s, g))
  {
  }

  /** Forgetting a task of any run stirs nothing. */
  lemma StirsAfterDrop(s: Scheduler, g: RunId, s': Scheduler)
    ensures Stirs(s, DropTask(s, g))
    ensures Stirs(DropTask(s, g), s') ==> Stirs(s, s')
  {}

  lemma ReportStirs(cfg: Config, s: Scheduler, e: Event)
    requires e.PoolReports? && Possible(s, e) && !Quiet(s, e)
    ensures Stirs(s, Apply(cfg, s, e))
  {
    hide AfterStepSuccess, RaiseIn, Stirs;
    var s1 := if s.Has(e.scope) && s.Node(e.scope).state.Running? && e.submitter == s.nodes[e.scope] then s
        else DropTask(s, e.submitter);
    StirsAfterDrop(s, e.submitter, Apply(cfg, s, e));
    if s.Has(e.scope) && s.Node(e.scope).state.Running? {
      var g := s.nodes[e.scope];
      match e.end {
        case Raised(isAbort) => RaiseStirs(s1, g, Failure(g, isAbort));
        case Returned(result) => AfterStepStirs(cfg, s1, g, result);
      }
    }
  }

  lemma WorkEventStirs(cfg: Config, s: Scheduler, e: Event)
    requires Possible(s, e) && !Quiet(s, e)
    requires e.Aborts? || e.SoftWaits? || e.Defers? || e.PersistChecks? || e.PersistWrites? || e.PersistRaises?
             || e.PersistDefers?
          || e.PersistFinishes? || e.Wipes?
    ensures Stirs(s, Apply(cfg, s, e))
  {
    hide RaiseIn, Fail, PersistCheck, PersistWrite, PersistFinish, RecoverOnDependency;
    match e {
      case Aborts(scope, isAbort, _) =>
        if s.Has(scope) { RaiseStirs(s, s.nodes[scope], Failure(s.nodes[scope], isAbort)); }
      case Defers(g) => RecoverStirs(s, g, s.tasks[g].recovery);
      case PersistChecks(g) => PersistStirs(cfg, s, g);
      case PersistWrites(g) => PersistStirs(cfg, s, g);
      case PersistFinishes(g) => PersistStirs(cfg, s, g);
      case PersistRaises(g, isAbort) => RaiseStirs(s, g, Failure(g, isAbort));
      case PersistDefers(g, recovery) => RecoverStirs(s, g, recovery);
      case Wipes(_) =>
    }
  }

  /** Every event but the quiet ones keeps the scheduler busy. */
  lemma LoudEventStaysBusy(cfg: Config, s: Scheduler, e: Event)
    requires cfg.hasPool && Busy(s) && Possible(s, e) && !Quiet(s, e) && Ungated(e)
    requires !Apply(cfg, s, e).faulted
    ensures Busy(Apply(cfg, s, e))
  {
    hide Dispatch, SubmitPrepare, Replace, RefreshEach;
    match e {
      case Submits(req, plan, o) => DispatchDrains(cfg, SubmitPrepare(cfg, s, req, plan), o, 0);
      case Ensures(req, plan, o) =>
        var hollow := s.Has(req.scope) && s.Node(req.scope).IsTerminal() && !req.forceFresh;
        DispatchDrains(cfg, SubmitPrepare(cfg, if hollow then Replace(s, req.scope) else s, req, plan), o, 0);
      case WakesParked(req, plan, o) => DispatchDrains(cfg, SubmitPrepare(cfg, s, req, plan), o, 0);
      case PlanningRaises(scope) => ReplaceStaysBusy(s, scope);
      case Dispatches(o) => DispatchDrains(cfg, s, o, 0);
      case RunsIdle(o) => DispatchDrains(cfg, RefreshEach(s, s.order, None), o, 0);
      case RunsCallback(cb, plan, o) => CallbackStaysBusy(cfg, s, cb, plan, o);
      case _ =>
        if e.Aborts? || e.SoftWaits? || e.Defers? || e.PersistChecks? || e.PersistWrites? || e.PersistRaises?
            || e.PersistDefers?
          || e.PersistFinishes? || e.Wipes? { WorkEventStirs(cfg, s, e); } else { RunEventStirs(cfg, s, e); }
        StirsKeepsBusy(s, Apply(cfg, s, e));
    }
  }

  lemma ReplaceStaysBusy(s: Scheduler, scope: ComputeScope)
    requires Busy(s) && s.Has(scope) && s.Node(scope).IsTerminal()
    ensures Busy(Replace(s, scope))
  {
    var s' := Replace(s, scope);
    if s'.readyQueue != [] && s'.callbacks == multiset{} {
      assert s.readyQueue != [];
      var g :| g in s.runs && s.Running(g);
      assert s'.Running(g);
    }
  }

  lemma CallbackStaysBusy(cfg: Config, s: Scheduler, cb: Callback, plan: Plan, o: DispatchOracle)
    requires cfg.hasPool && cb in s.callbacks && OpenGates(o) && !RunCallback(cfg, s, cb, plan, o).faulted
    ensures Busy(RunCallback(cfg, s, cb, plan, o))
  {
    match cb {
      case DispatchReady => DispatchDrains(cfg, Consume(s, cb), o, 0);
      case DependencyTerminal(x) => assert DispatchReady in RunCallback(cfg, s, cb, plan, o).callbacks;
      case ForceFresh(_, _, _, _) => DispatchDrains(cfg,
          Consume(SubmitPrepare(cfg, s, CallbackRequest(cb), plan), cb), o, 0);
    }
  }

  /** No gate rejects, and nothing parks or defers without demanding its dependency. */
  ghost predicate Loud(states: seq<Scheduler>, events: seq<Event>) {
    && |states| == |events| + 1
    && forall k {:trigger events[k]} :: 0 <= k < |events| ==> !Quiet(states[k], events[k]) && Ungated(events[k])
  }

  /** No stall: with a pool, open gates and no park, soft deferral or deferral without a
      force-fresh demand, ready work always has a dispatch pass coming. */
  lemma {:induction false} NoStall(cfg: Config, states: seq<Scheduler>, events: seq<Event>, i: nat)
    requires IsRun(cfg, states, events) && i < |states| && cfg.hasPool
    requires Loud(states, events)
    ensures Busy(states[i])
  {
    if i == 0 {
      assert states[0] == INITIAL;
    } else {
      NoStall(cfg, states, events, i - 1);
      RunStep(cfg, states, events, i);
      assert !Quiet(states[i - 1], events[i - 1]) && Ungated(events[i - 1]);
      hide Loud, Busy, Apply, Possible, Ungated, Quiet, IsRun, Disciplined;
      LoudEventStaysBusy(cfg, states[i - 1], events[i - 1]);
    }
  }
}
