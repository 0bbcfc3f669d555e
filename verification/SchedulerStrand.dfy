/** A run of the orchestrator in which a genuine failure is overlooked, from the start. */
module SchedulerStrand {
  import opened Prelude
  import opened Scheduler
  import opened SchedulerSubmit
  import opened SchedulerEvents
  import opened SchedulerFinish
  import opened SchedulerTheorems
  import opened SchedulerDemos
  import opened SchedulerCascade
  import opened SchedulerSpread

  // Scope 2 depends on scope 1.  While the step of 2 is running, 1 is submitted afresh and fails;
  // then the step of 2 says continue.

  const BOTH := Plan([PlannedNode(1, []), PlannedNode(2, [1])], {})
  const AGAIN := Plan([PlannedNode(1, [])], {})

  function Begun(scope: ComputeScope, deps: seq<ComputeScope>, isSealed: bool): NodeRun {
    PlannedRun(scope, deps, Running).(generationAtSubmit := Some(0), executionSealed := isSealed)
  }

  const FIRST := PlannedRun(1, [], Complete).(resultWire := Some(EmptyWire), executionSealed := true)
  const BROKEN := Begun(1, [], true).(state := Failed, error := Some(Failure(2, false)))

  function State(runs: map<RunId, NodeRun>, nodes: map<ComputeScope, RunId>, order: seq<ComputeScope>,
          queue: seq<ComputeScope>,
                 callbacks: multiset<Callback>, tasks: map<RunId, Task>, nextRun: RunId): Scheduler {
    Scheduler(runs, nodes, order, queue, callbacks, tasks, map[], nextRun, 0, map[], {}, false)
  }

  const T0 := State(map[0 := PlannedRun(1, [], WaitingDeps), 1 := PlannedRun(2, [1], WaitingDeps)],
      map[1 := 0, 2 := 1], [1, 2], [], multiset{}, map[], 2)
  const T1 := State(map[0 := Begun(1, [], false), 1 := PlannedRun(2, [1], WaitingDeps)], map[1 := 0, 2 := 1], [1, 2],
      [], multiset{}, map[0 := PoolFlush], 2)
  const T2 := State(map[0 := Begun(1, [], true), 1 := PlannedRun(2, [1], WaitingDeps)], map[1 := 0, 2 := 1], [1, 2],
      [], multiset{}, map[0 := PoolWork], 2)
  const T3 := State(map[0 := FIRST, 1 := PlannedRun(2, [1], WaitingDeps)], map[1 := 0, 2 := 1], [1, 2], [],
      multiset{DependencyTerminal(1)}, map[], 2)
  const T4 := State(map[0 := FIRST, 1 := PlannedRun(2, [1], Ready)], map[1 := 0, 2 := 1], [1, 2], [2],
      multiset{DispatchReady}, map[], 2)
  const T5 := State(map[0 := FIRST, 1 := Begun(2, [1], false)], map[1 := 0, 2 := 1], [1, 2], [], multiset{},
      map[1 := PoolFlush], 2)
  const T6 := State(map[0 := FIRST, 1 := Begun(2, [1], true)], map[1 := 0, 2 := 1], [1, 2], [], multiset{},
      map[1 := PoolWork], 2)
  const T7 := State(map[0 := FIRST, 1 := Begun(2, [1], true), 2 := Begun(1, [], false)], map[1 := 2, 2 := 1], [2, 1],
      [], multiset{}, map[1 := PoolWork, 2 := PoolFlush], 3)
  const T8 := State(map[0 := FIRST, 1 := Begun(2, [1], true), 2 := Begun(1, [], true)], map[1 := 2, 2 := 1], [2, 1],
      [], multiset{}, map[1 := PoolWork, 2 := PoolWork], 3)
  const T9 := State(map[0 := FIRST, 1 := Begun(2, [1], true), 2 := BROKEN], map[1 := 2, 2 := 1], [2, 1], [],
      multiset{DependencyTerminal(1)}, map[1 := PoolWork], 3)
  const T10 := State(map[0 := FIRST, 1 := Begun(2, [1], true), 2 := BROKEN], map[1 := 2, 2 := 1], [2, 1], [],
      multiset{DispatchReady}, map[1 := PoolWork], 3)
  const T11 := State(map[0 := FIRST, 1 := Begun(2, [1], true), 2 := BROKEN], map[1 := 2, 2 := 1], [2, 1], [],
      multiset{}, map[1 := PoolWork], 3)

  /** The event is possible, assumed of the environment, and leads from one state to the other. */
  ghost predicate Goes(cfg: Config, s: Scheduler, e: Event, s': Scheduler) {
    Possible(s, e) && Disciplined(cfg, s, e) && s' == Apply(cfg, s, e)
  }

  lemma SubmissionGoes(cfg: Config, s: Scheduler, req: Request, plan: Plan, s1: Scheduler, s': Scheduler)
    requires PlanOk(cfg, req, plan) && SubmitPrepare(cfg, s, req, plan) == s1 && Dispatch(cfg, s1, OPEN, 0) == s'
    ensures Goes(cfg, s, Submits(req, plan, OPEN), s')
  {
    hide PlanOk, SubmitPrepare, Dispatch;
  }

  lemma ReportGoes(cfg: Config, s: Scheduler, scope: ComputeScope, g: RunId, end: StepEnd, s': Scheduler)
    requires g in s.runs && g in s.tasks && s.tasks[g].PoolWork? && s.runs[g].scope == scope
    requires ReportMatches(s, scope, g) && (end.Returned? ==> ResultOk(cfg, scope, end.result))
    requires CompletePoolStep(cfg, s, scope, g, end) == s'
    ensures Goes(cfg, s, PoolReports(scope, g, end), s')
  {
    hide CompletePoolStep;
  }

  lemma TerminalGoes(cfg: Config, s: Scheduler, x: ComputeScope, s': Scheduler)
    requires DependencyTerminal(x) in s.callbacks
    requires Consume(Schedule(RefreshEach(s, s.order, Some(x)), DispatchReady), DependencyTerminal(x)) == s'
    ensures Goes(cfg, s, RunsCallback(DependencyTerminal(x), AGAIN, OPEN), s')
  {
    hide RefreshEach, Schedule, Consume;
  }

  // --- the two submissions ------------------------------------------------------------------

  lemma BothRegister(cfg: Config)
    requires cfg == SingleStep(false)
    ensures RegisterAll(cfg, INITIAL, BOTH.nodes, Ask(2, false), {}) == T0
  {
    var req := Ask(2, false);
    var n := BOTH.nodes;
    var s1 := FreshRun(INITIAL, PlannedRun(1, [], WaitingDeps));
    var s2 := FreshRun(s1, PlannedRun(2, [1], WaitingDeps));
    assert n[1..] == [PlannedNode(2, [1])] && n[1..][1..] == [];
    assert Register(cfg, INITIAL, n[0], req, {}) == s1;
    assert Register(cfg, s1, n[1], req, {}) == s2;
    assert s2 == T0;
    hide Register;
    assert RegisterAll(cfg, s2, [], req, {}) == s2;
    assert RegisterAll(cfg, s1, n[1..], req, {}) == s2;
  }

  const T0_READY := T0.(runs := map[0 := PlannedRun(1, [], Ready), 1 := PlannedRun(2, [1], WaitingDeps)],
      readyQueue := [1])

  lemma BothRefresh()
    ensures RefreshEach(T0, [1, 2], None) == T0_READY
  {
    assert FailedDependencyError(T0, []) == None;
    assert Refresh(T0, 0) == T0_READY;
    assert FailedDependencyError(T0_READY, [1])
           == None by { assert [1][1..] == [] && FailedDependencyError(T0_READY, []) == None; }
    assert !T0_READY.CompleteAt(1) && T0_READY.runs[1].dependencyScopes[0] == 1;
    assert Refresh(T0_READY, 1) == T0_READY;
    hide Refresh;
    assert [1, 2][1..] == [2] && [2][1..] == [];
    assert RefreshEach(T0_READY, [], None) == T0_READY;
    assert RefreshEach(T0_READY, [2], None) == T0_READY;
  }

  lemma BothPlan(cfg: Config)
    requires cfg == SingleStep(false)
    ensures SubmitPrepare(cfg, INITIAL, Ask(2, false), BOTH) == T0_READY
  {
    BothRegister(cfg);
    BothRefresh();
    assert PlaceholderRoot(T0, Ask(2, false)) == T0;
    hide RegisterAll, RefreshEach, PlaceholderRoot;
  }

  const T6_GONE := T6.(nodes := map[2 := 1], order := [2])
  const T6_AGAIN := State(T6.runs[2 := PlannedRun(1, [], WaitingDeps)], map[1 := 2, 2 := 1], [2, 1], [], multiset{},
      map[1 := PoolWork], 3)
  const T6_READY := T6_AGAIN.(runs := T6.runs[2 := PlannedRun(1, [], Ready)], readyQueue := [1])

  lemma BothAllowed(cfg: Config)
    requires cfg == SingleStep(false)
    ensures PlanOk(cfg, Ask(2, false), BOTH) && PlanOk(cfg, Ask(1, true), AGAIN)
  {}

  /** The only ready node begins and its flush starts. */
  lemma FirstBegins(cfg: Config)
    requires cfg == SingleStep(false)
    ensures Dispatch(cfg, T0_READY, OPEN, 0) == T1 && Dispatch(cfg, T6_READY, OPEN, 0) == T7
  {
    OnlyReadyBegins(cfg, T0_READY, 1, 0, false);
    OnlyReadyBegins(cfg, T6_READY, 1, 2, false);
    hide Dispatch;
    assert Begin(T0_READY.(readyQueue := []), 0, PoolFlush) == T1;
    assert Begin(T6_READY.(readyQueue := []), 2, PoolFlush) == T7;
  }

  lemma Step1(cfg: Config)
    requires cfg == SingleStep(false)
    ensures Goes(cfg, INITIAL, Submits(Ask(2, false), BOTH, OPEN), T1)
  {
    BothPlan(cfg);
    FirstBegins(cfg);
    BothAllowed(cfg);
    hide *;
    SubmissionGoes(cfg, INITIAL, Ask(2, false), BOTH, T0_READY, T1);
  }

  lemma AgainRegisters(cfg: Config)
    requires cfg == SingleStep(false)
    ensures RegisterAll(cfg, T6_GONE, AGAIN.nodes, Ask(1, true), {}) == T6_AGAIN
  {
    assert Register(cfg, T6_GONE, AGAIN.nodes[0], Ask(1, true), {}) == T6_AGAIN;
    assert AGAIN.nodes[1..] == [];
  }

  lemma AgainPlans(cfg: Config)
    requires cfg == SingleStep(false)
    ensures PlanSubmission(cfg, T6_GONE, Ask(1, true), AGAIN) == T6_READY
  {
    var req := Ask(1, true);
    AgainRegisters(cfg);
    assert PlaceholderRoot(T6_AGAIN, req) == T6_AGAIN;
    assert Refresh(T6_AGAIN, 1) == T6_AGAIN;
    assert Refresh(T6_AGAIN, 2) == T6_READY by { assert FailedDependencyError(T6_AGAIN, []) == None; }
    hide Refresh, RegisterAll, PlaceholderRoot;
    assert [2, 1][1..] == [1] && [1][1..] == [];
    assert RefreshEach(T6_READY, [], None) == T6_READY;
    assert RefreshEach(T6_AGAIN, [1], None) == T6_READY;
  }

  lemma Step7(cfg: Config)
    requires cfg == SingleStep(false)
    ensures Goes(cfg, T6, Submits(Ask(1, true), AGAIN, OPEN), T7)
  {
    assert Replace(T6, 1) == T6_GONE by { assert [1, 2][1..] == [2]; }
    AgainPlans(cfg);
    assert SubmitPrepare(cfg, T6, Ask(1, true), AGAIN) == T6_READY by { hide PlanSubmission, Replace; }
    FirstBegins(cfg);
    BothAllowed(cfg);
    hide *;
    SubmissionGoes(cfg, T6, Ask(1, true), AGAIN, T6_READY, T7);
  }

  // --- reports ------------------------------------------------------------------------------

  lemma FirstFinishes(cfg: Config)
    requires cfg == SingleStep(false)
    ensures AfterStepSuccess(cfg, T2, 0, FINISHED.result) == T3
  {
    var done := SetRun(T2, 0, Accepted(T2.runs[0], FINISHED.result));
    assert Released(map[], [], None) == map[];
    assert Settle(DropTask(done, 0), 0, Complete, None) == T3;
  }

  lemma Step3(cfg: Config)
    requires cfg == SingleStep(false)
    ensures Goes(cfg, T2, PoolReports(1, 0, FINISHED), T3)
  {
    FirstFinishes(cfg);
    hide AfterStepSuccess, T3;
    assert CompletePoolStep(cfg, T2, 1, 0, FINISHED) == T3;
    hide CompletePoolStep;
    ReportGoes(cfg, T2, 1, 0, FINISHED, T3);
  }

  lemma Step9(cfg: Config)
    ensures Goes(cfg, T8, PoolReports(1, 2, Raised(false)), T9)
  {
    assert Released(map[], [], Some(Failure(2, false))) == map[];
    assert Settle(DropTask(T8, 2), 2, Failed, Some(Failure(2, false))) == T9;
  }

  // --- callbacks ----------------------------------------------------------------------------

  lemma WaiterIsReady()
    ensures Refresh(T3, 1) == T3.(runs := T4.runs, readyQueue := [2])
  {
    assert FailedDependencyError(T3, [1]) == None by { assert [1][1..] == [] && FailedDependencyError(T3, []) == None; }
    assert T3.CompleteAt(1);
  }

  lemma Step4(cfg: Config)
    ensures Goes(cfg, T3, RunsCallback(DependencyTerminal(1), AGAIN, OPEN), T4)
  {
    var s := T3.(runs := T4.runs, readyQueue := [2]);
    WaiterIsReady();
    hide Refresh;
    assert [1, 2][1..] == [2] && [2][1..] == [];
    assert RefreshEach(s, [], Some(1)) == s;
    assert RefreshEach(T3, [2], Some(1)) == s;
    assert RefreshEach(T3, [1, 2], Some(1)) == s;
    hide RefreshEach;
    assert Consume(Schedule(s, DispatchReady), DependencyTerminal(1)) == T4;
  }

  lemma Step10(cfg: Config)
    ensures Goes(cfg, T9, RunsCallback(DependencyTerminal(1), AGAIN, OPEN), T10)
  {
    assert Refresh(T9, 1) == T9;
    hide Refresh;
    assert [2, 1][1..] == [1] && [1][1..] == [];
    assert RefreshEach(T9, [], Some(1)) == T9;
    assert RefreshEach(T9, [1], Some(1)) == T9;
    assert RefreshEach(T9, [2, 1], Some(1)) == T9;
    hide RefreshEach;
    assert Consume(Schedule(T9, DispatchReady), DependencyTerminal(1)) == T10;
    TerminalGoes(cfg, T9, 1, T10);
  }

  lemma Step5(cfg: Config)
    requires cfg == SingleStep(false)
    ensures Goes(cfg, T4, RunsCallback(DispatchReady, AGAIN, OPEN), T5)
  {
    var s := T4.(callbacks := multiset{});
    var s1 := s.(readyQueue := []);
    assert Consume(T4, DispatchReady) == s;
    assert s.DepsComplete(s.runs[1]) && !s1.WirelessDependency(s1.runs[1]) by {
           assert s.CompleteAt(1) && s1.Node(1).resultWire.Some?; }
    assert Pick(s, OPEN.admit, 0, 1) == (s1, Some(2)) by { assert [2][1..] == []; }
    assert Dispatch(cfg, s, OPEN, 0) == Begin(s1, 1, PoolFlush);
    hide Dispatch;
    assert Begin(s1, 1, PoolFlush) == T5;
  }

  lemma Step11(cfg: Config)
    ensures Goes(cfg, T10, RunsCallback(DispatchReady, AGAIN, OPEN), T11)
  {
    assert Consume(T10, DispatchReady) == T11;
    assert Dispatch(cfg, T11, OPEN, 0) == T11;
  }

  lemma Seal1(cfg: Config)
    ensures Goes(cfg, T1, SealsPool(0), T2)
  {
    assert T1.runs[0 := Begun(1, [], true)] == T2.runs && T1.tasks[0 := PoolWork] == T2.tasks;
  }

  lemma Seal2(cfg: Config)
    ensures Goes(cfg, T5, SealsPool(1), T6)
  {
    assert T5.runs[1 := Begun(2, [1], true)] == T6.runs && T5.tasks[1 := PoolWork] == T6.tasks;
  }

  lemma Seal3(cfg: Config)
    ensures Goes(cfg, T7, SealsPool(2), T8)
  {
    assert T7.runs[2 := Begun(1, [], true)] == T8.runs && T7.tasks[2 := PoolWork] == T8.tasks;
  }

  // --- the run ------------------------------------------------------------------------------

  /** A run goes on by any event that is possible and assumed of the environment. */
  lemma Extend(cfg: Config, states: seq<Scheduler>, events: seq<Event>, e: Event, s: Scheduler)
    returns (states': seq<Scheduler>, events': seq<Event>)
    requires IsRun(cfg, states, events) && |states| > 0 && Goes(cfg, states[|states| - 1], e, s) && !s.faulted
    ensures IsRun(cfg, states', events') && |states'| > 0 && states'[|states'| - 1] == s
  {
    hide Possible, Disciplined, Apply;
    states', events' := states + [s], events + [e];
  }

  lemma NoneFaulted()
    ensures !T1.faulted && !T2.faulted && !T3.faulted && !T4.faulted && !T5.faulted && !T6.faulted
    ensures !T7.faulted && !T8.faulted && !T9.faulted && !T10.faulted && !T11.faulted
  {}

  lemma EmptyRun(cfg: Config)
    ensures IsRun(cfg, [INITIAL], [])
  {}

  /** From the start, with every assumption met, to a state in which the step of scope 2 runs
      while its dependency has failed and nothing is pending. */
  lemma FailureWhileRunning(cfg: Config) returns (states: seq<Scheduler>, events: seq<Event>)
    requires cfg == SingleStep(false)
    ensures IsRun(cfg, states, events) && |states| > 0 && states[|states| - 1] == T11
  {
    Step1(cfg); Step3(cfg); Step4(cfg); Step5(cfg); Step7(cfg); Step9(cfg); Step10(cfg); Step11(cfg);
    Seal1(cfg); Seal2(cfg); Seal3(cfg);
    NoneFaulted();
    EmptyRun(cfg);
    hide *;
    var told, ready := RunsCallback(DependencyTerminal(1), AGAIN, OPEN), RunsCallback(DispatchReady, AGAIN, OPEN);
    states, events := [INITIAL], [];
    states, events := Extend(cfg, states, events, Submits(Ask(2, false), BOTH, OPEN), T1);
    states, events := Extend(cfg, states, events, SealsPool(0), T2);
    states, events := Extend(cfg, states, events, PoolReports(1, 0, FINISHED), T3);
    states, events := Extend(cfg, states, events, told, T4);
    states, events := Extend(cfg, states, events, ready, T5);
    states, events := Extend(cfg, states, events, SealsPool(1), T6);
    states, events := Extend(cfg, states, events, Submits(Ask(1, true), AGAIN, OPEN), T7);
    states, events := Extend(cfg, states, events, SealsPool(2), T8);
    states, events := Extend(cfg, states, events, PoolReports(1, 2, Raised(false)), T9);
    states, events := Extend(cfg, states, events, told, T10);
    states, events := Extend(cfg, states, events, ready, T11);
  }

  lemma LastStateStrands()
    ensures 1 in T11.runs && T11.Running(1) && T11.runs[1].scope == 2 && !T11.Stale(T11.runs[1]) && 1 in T11.tasks
            && T11.tasks[1].PoolWork?
    ensures T11.callbacks == multiset{} && T11.readyQueue == [] && forall h :: h in T11.runs && h != 1 ==>
            !T11.Running(h)
    ensures Blamed(T11, T11.runs[1]) && !Warned(T11, T11.runs[1]) && !Held(T11, T11.runs[1])
    ensures T11.Has(2) && T11.nodes[2] == 1
  {
    assert T11.HardFailedAt(1) && T11.runs[1].dependencyScopes == [1];
    assert 1 in T11.runs[1].dependencyScopes;
  }

  /** So there is a run whose step then says continue, after which scope 2 waits on the failure
      and nothing is left that could fail it. */
  lemma OverlookedFailure(cfg: Config, o: DispatchOracle)
          returns (states: seq<Scheduler>, events: seq<Event>, s1: Scheduler, s2: Scheduler)
    requires cfg == SingleStep(false)
    ensures IsRun(cfg, states, events) && |states| > 0
    ensures var s := states[|states| - 1]; var report :=
            PoolReports(2, 1, Returned(StepResult(Continue, None, false, None)));
            && Possible(s, report) && Disciplined(cfg, s, report) && s1 == Apply(cfg, s, report) && Overlooks(s, report)
            && DispatchReady in s1.callbacks && s2 == RunCallback(cfg, s1, DispatchReady, AGAIN, o)
    ensures Quiescent(s2) && 1 in s2.runs && s2.runs[1].state.WaitingDeps? && Blamed(s2, s2.runs[1])
  {
    states, events := FailureWhileRunning(cfg);
    EveryRunIsSafe(cfg, states, events, |states| - 1);
    LastStateStrands();
    ContinueOverlooks(T11, 1, None);
    hide *;
    s1, s2 := LateFailureStrands(cfg, T11, 1, None, AGAIN, o);
  }
}
