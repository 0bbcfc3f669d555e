/** When a quiet event strands ready work. */
module SchedulerStalls {
  import opened Prelude
  import opened Scheduler
  import opened SchedulerInvariants
  import opened SchedulerSubmit
  import opened SchedulerEvents
  import opened SchedulerTheorems
  import opened SchedulerLimits
  import opened SchedulerDemos

  // --- quiet events -------------------------------------------------------------------------

  /** The event parks or quietly defers the running step of `g`. */
  ghost predicate Quietens(s: Scheduler, e: Event, g: RunId) {
    && s.Running(g) && !s.Stale(s.runs[g])
    && match e
       case InlineEnds(h, Returned(r)) => h == g && r.outcome.Park?
       case PoolReports(scope, h, Returned(r)) => h == g && r.outcome.Park? && s.Has(scope) && s.nodes[scope] == g
       case SoftWaits(h) => h == g
       case Defers(h) => h == g && g in s.tasks && s.tasks[g].Defer? && !s.tasks[g].recovery.forceFresh
       case PersistDefers(h, recovery) => h == g && !recovery.forceFresh
       case _ => false
  }

  ghost predicate OtherRuns(s: Scheduler, g: RunId) {
    exists h :: h in s.runs && h != g && s.Running(h)
  }

  /** The state after a quiet event: only `g` changed, it stopped, and nothing was scheduled. */
  ghost predicate Quietened(s: Scheduler, s': Scheduler, g: RunId) {
    && g in s.runs && g in s'.runs && s'.runs == s.runs[g := s'.runs[g]]
    && !s'.Running(g)
    && s'.callbacks == s.callbacks
    && s'.readyQueue == Without(s.readyQueue, s.runs[g].scope)
  }

  lemma ParkQuietens(cfg: Config, s: Scheduler, g: RunId, result: StepResult)
    requires s.Running(g) && !s.Stale(s.runs[g]) && result.outcome.Park?
    ensures Quietened(s, AfterStepSuccess(cfg, s, g, result), g)
  {
    hide ContinueStep, CompleteRun, RetryAfterEpochBump;
  }

  lemma DeferQuietens(s: Scheduler, g: RunId, recovery: Recovery)
    requires s.Running(g) && !recovery.forceFresh
    ensures Quietened(s, RecoverOnDependency(s, g, recovery), g) && Quietened(s, DemoteSoftly(s, g), g)
  {
  }

  lemma QuietEventQuietens(cfg: Config, s: Scheduler, e: Event, g: RunId)
    requires Possible(s, e) && Quietens(s, e, g)
    ensures Quietened(s, Apply(cfg, s, e), g)
  {
    hide AfterStepSuccess, RecoverOnDependency, DemoteSoftly, Quietened;
    match e {
      case InlineEnds(_, Returned(r)) => ParkQuietens(cfg, s, g, r);
      case PoolReports(_, _, Returned(r)) => ParkQuietens(cfg, s, g, r);
      case SoftWaits(_) => DeferQuietens(s, g, Recovery(s.runs[g].scope, false, None));
      case Defers(_) => DeferQuietens(s, g, s.tasks[g].recovery);
      case PersistDefers(_, recovery) => DeferQuietens(s, g, recovery);
    }
  }

  /** A quiet event leaves ready work stranded exactly when there was ready work, no callback
      was pending and nothing else was running. */
  lemma QuietEventStrandsIff(cfg: Config, s: Scheduler, e: Event, g: RunId)
    requires Inv(cfg, s) && Possible(s, e) && Quietens(s, e, g)
    ensures Busy(Apply(cfg, s, e)) <==> s.readyQueue == [] || s.callbacks != multiset{} || OtherRuns(s, g)
  {
    QuietEventQuietens(cfg, s, e, g);
    var s' := Apply(cfg, s, e);
    hide Apply, Possible, Quietens;
    RunningIsNotQueued(cfg, s, g);
    assert s'.readyQueue == s.readyQueue;
    hide Inv;
    if OtherRuns(s, g) {
      var h :| h in s.runs && h != g && s.Running(h);
      assert s'.Running(h);
    }
    if SomethingRuns(s') {
      var h :| h in s'.runs && s'.Running(h);
      assert s.Running(h);
    }
  }

  lemma RunningIsNotQueued(cfg: Config, s: Scheduler, g: RunId)
    requires Inv(cfg, s) && s.Running(g)
    ensures s.runs[g].scope !in s.readyQueue
  {
    CoreRun(cfg, s, g);
    assert Live(s, g);
    assert s.runs[g].scope in s.readyQueue <==> s.IsReady(s.runs[g].scope);
  }

  /** The two dependencies and the root of the trace below, as a submission leaves them. */
  function Forked(s: Scheduler): Scheduler {
    s.(runs := map[0 := PlannedRun(1, [], Running).(generationAtSubmit := Some(0)), 1 := PlannedRun(2, [], Ready),
        2 := PlannedRun(3, [1, 2], WaitingDeps)],
       nodes := map[1 := 0, 2 := 1, 3 := 2], order := [1, 2, 3], readyQueue := [2], tasks := map[0 := PoolFlush],
           nextRun := 3)
  }

  const FORK := Plan([PlannedNode(1, []), PlannedNode(2, []), PlannedNode(3, [1, 2])], {})

  function ForkRegistered(): Scheduler {
    INITIAL.(runs := map[0 := PlannedRun(1, [], WaitingDeps), 1 := PlannedRun(2, [], WaitingDeps),
        2 := PlannedRun(3, [1, 2], WaitingDeps)],
             nodes := map[1 := 0, 2 := 1, 3 := 2], order := [1, 2, 3], nextRun := 3)
  }

  lemma ForkRegisters(cfg: Config)
    requires cfg == SingleStep(false)
    ensures RegisterAll(cfg, INITIAL, FORK.nodes, Ask(3, false), {}) == ForkRegistered()
  {
    var req := Ask(3, false);
    var s1 := FreshRun(INITIAL, PlannedRun(1, [], WaitingDeps));
    var s2 := FreshRun(s1, PlannedRun(2, [], WaitingDeps));
    var s3 := FreshRun(s2, PlannedRun(3, [1, 2], WaitingDeps));
    var n := FORK.nodes;
    assert n[1..] == [PlannedNode(2, []), PlannedNode(3, [1, 2])] && n[1..][1..] == [PlannedNode(3, [1, 2])]
           && n[1..][1..][1..] == [];
    assert Register(cfg, INITIAL, n[0], req, {}) == s1;
    assert Register(cfg, s1, n[1], req, {}) == s2;
    assert Register(cfg, s2, n[2], req, {}) == s3;
    hide Register;
    assert RegisterAll(cfg, s3, [], req, {}) == s3;
    assert RegisterAll(cfg, s2, [n[2]], req, {}) == s3;
    assert RegisterAll(cfg, s1, n[1..], req, {}) == s3;
  }

  function ForkReady(): Scheduler {
    ForkRegistered().(
      runs := map[0 := PlannedRun(1, [], Ready), 1 := PlannedRun(2, [], Ready),
          2 := PlannedRun(3, [1, 2], WaitingDeps)],
      readyQueue := [1, 2])
  }

  lemma ForkRefreshes()
    ensures RefreshEach(ForkRegistered(), [1, 2, 3], None) == ForkReady()
  {
    var s0 := ForkRegistered();
    var s1 := Promote(s0, 0);
    var s2 := Promote(s1, 1);
    assert FailedDependencyError(s0, []) == None;
    assert Refresh(s0, 0) == s1;
    assert Refresh(s1, 1) == s2;
    assert s2 == ForkReady();
    ForkRootWaits();
    assert s0.Has(1) && s0.nodes[1] == 0 && s1.Has(2) && s1.nodes[2] == 1 && s2.Has(3) && s2.nodes[3] == 2;
    hide Refresh, Promote, ForkRegistered, ForkReady;
    assert [1, 2, 3][1..] == [2, 3] && [2, 3][1..] == [3] && [3][1..] == [];
    assert RefreshEach(s2, [], None) == s2;
    assert RefreshEach(s2, [3], None) == s2;
    assert RefreshEach(s1, [2, 3], None) == s2;
  }

  lemma ForkRootWaits()
    ensures Refresh(ForkReady(), 2) == ForkReady()
  {
    var s := ForkReady();
    assert FailedDependencyError(s, [1, 2]) == None by {
      assert [1, 2][1..] == [2] && [2][1..] == [];
      assert FailedDependencyError(s, [2]) == None;
    }
    assert !s.CompleteAt(1);
    assert s.runs[2].dependencyScopes[0] == 1;
  }

  lemma ForkPlans(cfg: Config)
    requires cfg == SingleStep(false)
    ensures SubmitPrepare(cfg, INITIAL, Ask(3, false), FORK) == ForkReady()
  {
    ForkRegisters(cfg);
    ForkRefreshes();
    assert PlaceholderRoot(ForkRegistered(), Ask(3, false)) == ForkRegistered();
    assert ForkRegistered().order == [1, 2, 3];
    hide RegisterAll, RefreshEach, PlaceholderRoot, ForkRegistered, ForkReady;
  }

  lemma ForkDispatches(cfg: Config)
    requires cfg == SingleStep(false)
    ensures Dispatch(cfg, ForkReady(), OPEN, 0) == Forked(INITIAL)
  {
    var s1 := ForkReady().(readyQueue := [2]);
    assert Pick(ForkReady(), OPEN.admit, 0, 2) == (s1, Some(1)) by { assert [1, 2][1..] == [2]; }
    hide Pick;
    assert Dispatch(cfg, ForkReady(), OPEN, 0) == Begin(s1, 0, PoolFlush);
  }

  lemma ForkSubmits(cfg: Config)
    requires cfg == SingleStep(false)
    ensures Submit(cfg, INITIAL, Ask(3, false), FORK, OPEN) == Forked(INITIAL)
  {
    ForkPlans(cfg);
    ForkDispatches(cfg);
    hide SubmitPrepare, Dispatch, ForkReady, Forked;
  }

  /** A run that strands ready work: one dispatch pass begins one of two ready pool steps, the
      step parks, and the other node stays ready with nothing left to dispatch it. */
  lemma ParkStrandsReadyWork() returns (states: seq<Scheduler>, events: seq<Event>)
    ensures IsRun(SingleStep(false), states, events) && |events| == 3
    ensures events[2] == PoolReports(1, 0, PARKS)
    ensures states[3].readyQueue == [2] && states[3].callbacks == multiset{} && !SomethingRuns(states[3])
  {
    var cfg := SingleStep(false);
    ForkSubmits(cfg);
    ForkAllowed(cfg);
    SubmitEffect(cfg, INITIAL, Ask(3, false), FORK);
    var s1 := Forked(INITIAL);
    assert !INITIAL.faulted && !s1.faulted;
    hide Submit, Possible, Apply, PlanOk;
    var s2, s3 := ParkSteps(cfg, s1);
    var e0 := Submits(Ask(3, false), FORK, OPEN);
    assert Disciplined(cfg, INITIAL, e0);
    hide *;
    states, events := ThreeEvents(cfg, e0, s1, SealsPool(0), s2, PoolReports(1, 0, PARKS), s3);
  }

  lemma ForkAllowed(cfg: Config)
    requires cfg == SingleStep(false)
    ensures PlanOk(cfg, Ask(3, false), FORK)
  {}

  lemma ParkSteps(cfg: Config, s1: Scheduler) returns (s2: Scheduler, s3: Scheduler)
    requires cfg == SingleStep(false) && s1 == Forked(INITIAL)
    ensures Possible(s1, SealsPool(0)) && s2 == Apply(cfg, s1, SealsPool(0))
    ensures Possible(s2, PoolReports(1, 0, PARKS)) && s3 == Apply(cfg, s2, PoolReports(1, 0, PARKS))
    ensures Disciplined(cfg, s1, SealsPool(0)) && Disciplined(cfg, s2, PoolReports(1, 0, PARKS))
    ensures s3.readyQueue == [2] && s3.callbacks == multiset{} && !SomethingRuns(s3) && !s2.faulted && !s3.faulted
  {
    hide Submit, CompletePoolStep, Possible, Apply, SomethingRuns;
    SealPoolEffect(cfg, s1, 0);
    s2 := SetTask(SetRun(s1, 0, s1.runs[0].(executionSealed := true)), 0, PoolWork);
    ReportEffect(cfg, s2, 1, 0, PARKS);
    ForkParks(cfg, s2);
    s3 := CompletePoolStep(cfg, s2, 1, 0, PARKS);
  }

  lemma ThreeEvents(cfg: Config, e0: Event, s1: Scheduler, e1: Event, s2: Scheduler, e2: Event, s3: Scheduler)
    returns (states: seq<Scheduler>, events: seq<Event>)
    requires Possible(INITIAL, e0) && s1 == Apply(cfg, INITIAL, e0) && Disciplined(cfg, INITIAL, e0)
    requires Possible(s1, e1) && s2 == Apply(cfg, s1, e1) && Disciplined(cfg, s1, e1)
    requires Possible(s2, e2) && s3 == Apply(cfg, s2, e2) && Disciplined(cfg, s2, e2)
    requires !INITIAL.faulted && !s1.faulted && !s2.faulted && !s3.faulted
    ensures IsRun(cfg, states, events) && states == [INITIAL, s1, s2, s3] && events == [e0, e1, e2]
  {
    hide Possible, Apply, Disciplined;
    states, events := [INITIAL], [];
    ExtendTrace(cfg, states, events, e0);
    states, events := [INITIAL, s1], [e0];
    ExtendTrace(cfg, states, events, e1);
    states, events := [INITIAL, s1, s2], [e0, e1];
    ExtendTrace(cfg, states, events, e2);
    states, events := [INITIAL, s1, s2, s3], [e0, e1, e2];
  }

  lemma ForkParks(cfg: Config, s: Scheduler)
    requires s == Forked(INITIAL).(runs := s.runs, tasks := s.tasks) && s.runs.Keys == {0, 1, 2}
    requires s.runs[0].state.Running? && s.runs[0].scope == 1 && !s.Stale(s.runs[0]) && s.runs[1].state.Ready?
             && s.runs[2].state.WaitingDeps?
    ensures var s' := CompletePoolStep(cfg, s, 1, 0, PARKS);
            s'.readyQueue == [2] && s'.callbacks == multiset{} && !SomethingRuns(s') && !s'.faulted
  {
    ParkQuietens(cfg, s, 0, PARKS.result);
    hide AfterStepSuccess;
    var s' := CompletePoolStep(cfg, s, 1, 0, PARKS);
    assert s' == AfterStepSuccess(cfg, s, 0, PARKS.result);
    assert Without([2], 1) == [2] by { assert [2][1..] == []; }
    QuietenedOnlyRun(s, s', 0);
  }

  lemma QuietenedOnlyRun(s: Scheduler, s': Scheduler, g: RunId)
    requires Quietened(s, s', g) && forall h :: h in s.runs && h != g ==> !s.runs[h].state.Running?
    ensures !SomethingRuns(s')
  {
    forall h | h in s'.runs ensures !s'.Running(h) {}
  }
}
