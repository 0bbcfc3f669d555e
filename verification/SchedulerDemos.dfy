/**
Concrete runs that show where the scheduler does less than its documentation hopes for, each
beside the exact condition.
*/
module SchedulerDemos {
  import opened Prelude
  import opened Scheduler
  import opened SchedulerEvents
  import opened SchedulerTheorems

  const OPEN := DispatchOracle((x, n) => true, (x, n) => false, (x, n) => None)

  function SingleStep(isInline: bool): Config {
    Config(x => [StepSpec("step", isInline)], x => if x < 0 then 0 else x, true)
  }

  function Ask(scope: ComputeScope, forceFresh: bool): Request {
    Request(scope, None, Background, forceFresh, Some(0))
  }

  const FINISHED := Returned(StepResult(Done, None, false, None))
  const PARKS := Returned(StepResult(Outcome.Park, None, false, None))

  function PlannedRun(scope: ComputeScope, deps: seq<ComputeScope>, state: NodeState): NodeRun {
    NewRun(PlannedNode(scope, deps), state, 0, Background, Some(0))
  }

  /** Planning a scope without dependencies on an idle scheduler makes it ready. */
  lemma SubmitOnePlans(cfg: Config, s: Scheduler, scope: ComputeScope, isInline: bool)
    requires !s.faulted && cfg == SingleStep(isInline) && s.nodes == map[] && s.order == [] && s.readyQueue == []
    ensures var registered := FreshRun(s, PlannedRun(scope, [], WaitingDeps));
            PlanSubmission(cfg, s, Ask(scope, false), Plan([PlannedNode(scope, [])], {}))
                == Promote(registered, s.nextRun)
  {
    var req := Ask(scope, false);
    var plan := Plan([PlannedNode(scope, [])], {});
    var registered := FreshRun(s, PlannedRun(scope, [], WaitingDeps));
    assert RegisterAll(cfg, s, plan.nodes, req, {}) == registered by {
      assert Register(cfg, s, plan.nodes[0], req, {}) == registered;
      assert plan.nodes[1..] == [];
    }
    assert registered.order == [scope] && PlaceholderRoot(registered, req) == registered;
    var promoted := Promote(registered, s.nextRun);
    assert Refresh(registered, s.nextRun) == promoted by {
      assert FailedDependencyError(registered, []) == None;
    }
    hide RegisterAll, Refresh, Promote, PlaceholderRoot;
    assert RefreshEach(registered, [scope], None) == promoted by {
      assert [scope][1..] == [];
      assert RefreshEach(promoted, [], None) == promoted;
    }
  }

  /** Submitting a scope without dependencies to an idle scheduler begins its step at once. */
  lemma SubmitOneBegins(cfg: Config, s: Scheduler, scope: ComputeScope, isInline: bool)
    requires !s.faulted && cfg == SingleStep(isInline) && s.nodes == map[] && s.order == [] && s.readyQueue == []
    ensures var begun := PlannedRun(scope, [], Running).(generationAtSubmit := Some(s.Epoch(scope)));
            Submit(cfg, s, Ask(scope, false), Plan([PlannedNode(scope, [])], {}), OPEN) ==
            s.(runs := s.runs[s.nextRun := begun], nodes := map[scope := s.nextRun], order := [scope],
               tasks := s.tasks[s.nextRun := if isInline then InlineBuild else PoolFlush], nextRun := s.nextRun + 1)
  {
    hide SubmitPrepare, Dispatch, Promote;
    SubmitOnePrepares(cfg, s, scope, isInline);
    var promoted := Promote(FreshRun(s, PlannedRun(scope, [], WaitingDeps)), s.nextRun);
    hide FreshRun;
    PromotedShape(s, scope, promoted);
    OnlyReadyBegins(cfg, promoted, scope, s.nextRun, isInline);
  }

  lemma SubmitOnePrepares(cfg: Config, s: Scheduler, scope: ComputeScope, isInline: bool)
    requires !s.faulted && cfg == SingleStep(isInline) && s.nodes == map[] && s.order == [] && s.readyQueue == []
    ensures SubmitPrepare(cfg, s, Ask(scope, false), Plan([PlannedNode(scope, [])], {})) ==
            Promote(FreshRun(s, PlannedRun(scope, [], WaitingDeps)), s.nextRun)
  {
    SubmitOnePlans(cfg, s, scope, isInline);
    hide PlanSubmission, Promote, FreshRun;
  }

  lemma PromotedShape(s: Scheduler, scope: ComputeScope, promoted: Scheduler)
    requires s.nodes == map[] && s.order == [] && s.readyQueue == []
    requires promoted == Promote(FreshRun(s, PlannedRun(scope, [], WaitingDeps)), s.nextRun)
    ensures promoted == s.(runs := s.runs[s.nextRun := PlannedRun(scope, [], Ready)],
            nodes := map[scope := s.nextRun], order := [scope],
                           readyQueue := [scope], nextRun := s.nextRun + 1)
  {}

  lemma OnlyReadyBegins(cfg: Config, s: Scheduler, scope: ComputeScope, g: RunId, isInline: bool)
    requires !s.faulted && cfg == SingleStep(isInline) && s.readyQueue == [scope] && s.IsReady(scope)
             && s.nodes[scope] == g
    requires s.runs[g].dependencyScopes == [] && s.runs[g].profileStepIndex == 0
    ensures Dispatch(cfg, s, OPEN, 0) == Begin(s.(readyQueue := []), g, if isInline then InlineBuild else PoolFlush)
  {
    var s1 := s.(readyQueue := []);
    assert Pick(s, OPEN.admit, 0, 1) == (s1, Some(scope)) by { assert s.readyQueue[1..] == []; }
    if isInline {
      assert Dispatch(cfg, Begin(s1, g, InlineBuild), OPEN, 1) == Begin(s1, g, InlineBuild);
    }
  }

  // --- inline steps and aborts --------------------------------------------------------------

  /** The end of an inline step is not checked against `running`: after an abort it moves the
      failed run on exactly when the epoch moved or the step says continue or complete. */
  lemma InlineEndRevivesIff(cfg: Config, s: Scheduler, g: RunId, result: StepResult)
    requires g in s.runs && s.runs[g].state.Failed?
    ensures AfterStepSuccess(cfg, s, g, result).runs[g].state != s.runs[g].state <==>
              s.Stale(s.runs[g]) || result.outcome.Continue? || result.outcome.Done?
  {
    var run := s.runs[g];
    var wire := WireOr(result.payload, run.resultWire);
    var cleared := SetRun(s, g, run.(generationAtSubmit := None, resultWire := wire));
    var done := SetRun(s, g, run.(generationAtSubmit := None,
        resultWire := WireOr(result.payload, WireOr(run.resultWire, Some(EmptyWire)))));
    RequeueShape(cfg, s, g);
    RequeueShape(cfg, cleared, g);
    SettleShape(DropTask(done, g), g, Complete, None);
    hide Settle, ContinueStep, RetryAfterEpochBump;
    match result.outcome
    case Continue =>
    case Park =>
    case WaitDeps =>
    case Persist =>
    case Done =>
  }

  // The events of the traces below, one effect each.

  lemma SubmitEffect(cfg: Config, s: Scheduler, req: Request, plan: Plan)
    ensures Possible(s, Submits(req, plan, OPEN))
            && Apply(cfg, s, Submits(req, plan, OPEN)) == Submit(cfg, s, req, plan, OPEN)
  {
  }

  lemma SealInlineEffect(cfg: Config, s: Scheduler, g: RunId)
    requires s.Running(g) && g in s.tasks && s.tasks[g].InlineBuild?
    ensures Possible(s, SealsInline(g))
    ensures Apply(cfg, s, SealsInline(g)) == SetTask(SetRun(s, g, s.runs[g].(executionSealed := true)), g, InlineRun)
  {
  }

  lemma SealPoolEffect(cfg: Config, s: Scheduler, g: RunId)
    requires s.Running(g) && g in s.tasks && s.tasks[g].PoolFlush?
    ensures Possible(s, SealsPool(g))
    ensures Apply(cfg, s, SealsPool(g)) == SetTask(SetRun(s, g, s.runs[g].(executionSealed := true)), g, PoolWork)
  {
  }

  lemma AbortEffect(cfg: Config, s: Scheduler, scope: ComputeScope)
    requires s.Has(scope) && !s.Node(scope).IsTerminal()
    ensures Possible(s, Aborts(scope, true, None))
    ensures Apply(cfg, s, Aborts(scope, true, None))
            == Settle(s, s.nodes[scope], Failed, Some(Failure(s.nodes[scope], true)))
  {
  }

  lemma InlineEndEffect(cfg: Config, s: Scheduler, g: RunId, result: StepResult)
    requires g in s.runs && g in s.tasks && s.tasks[g].InlineRun?
    ensures Possible(s, InlineEnds(g, Returned(result)))
            && Apply(cfg, s, InlineEnds(g, Returned(result))) == AfterStepSuccess(cfg, s, g, result)
  {
  }

  lemma ReportEffect(cfg: Config, s: Scheduler, scope: ComputeScope, g: RunId, end: StepEnd)
    requires g in s.runs && g in s.tasks && s.tasks[g].PoolWork? && s.runs[g].scope == scope
    ensures Possible(s, PoolReports(scope, g, end))
    ensures Apply(cfg, s, PoolReports(scope, g, end)) == CompletePoolStep(cfg, s, scope, g, end)
  {
  }

  lemma ExtendTrace(cfg: Config, states: seq<Scheduler>, events: seq<Event>, e: Event)
    requires IsTrace(cfg, states, events) && Possible(states[|events|], e)
    ensures IsTrace(cfg, states + [Apply(cfg, states[|events|], e)], events + [e])
  {
    hide Possible, Apply;
    var states' := states + [Apply(cfg, states[|events|], e)];
    var events' := events + [e];
    forall i | 0 <= i < |events'|
        ensures Possible(states'[i], events'[i]) && states'[i + 1] == Apply(cfg, states'[i], events'[i]) {
      if i < |events| { assert events'[i] == events[i]; }
    }
  }

  /** The first two states of a trace that submits one scope. */
  lemma StartTrace(cfg: Config, scope: ComputeScope, isInline: bool)
          returns (states: seq<Scheduler>, events: seq<Event>)
    requires cfg == SingleStep(isInline)
    ensures IsTrace(cfg, states, events) && |events| == 1
    ensures states[1] == INITIAL.(
              runs := map[0 := PlannedRun(scope, [], Running).(generationAtSubmit := Some(0))],
                  nodes := map[scope := 0], order := [scope],
              tasks := map[0 := if isInline then InlineBuild else PoolFlush], nextRun := 1)
  {
    var plan := Plan([PlannedNode(scope, [])], {});
    events := [];
    states := [INITIAL];
    assert IsTrace(cfg, states, events);
    SubmitOneBegins(cfg, INITIAL, scope, isInline);
    SubmitEffect(cfg, INITIAL, Ask(scope, false), plan);
    hide Possible, Apply, Submit;
    var e := Submits(Ask(scope, false), plan, OPEN);
    ExtendTrace(cfg, states, events, e);
    states, events := states + [Apply(cfg, INITIAL, e)], events + [e];
  }

  /** A trace in which a run that was aborted becomes complete: the abort hits an inline step
      while it executes. */
  lemma AbortedInlineStepCompletes() returns (states: seq<Scheduler>, events: seq<Event>)
    ensures IsTrace(SingleStep(true), states, events) && |events| == 4
    ensures 0 in states[3].runs && states[3].runs[0].AbortFailed()
    ensures 0 in states[4].runs && states[4].runs[0].state.Complete?
    ensures events[2].Aborts? && !Disciplined(SingleStep(true), states[2], events[2])
  {
    var cfg := SingleStep(true);
    states, events := StartTrace(cfg, 1, true);
    var s2, s3, s4 := AbortedInlineSteps(cfg, states[1]);
    hide *;
    states, events := ExtendThree(cfg, states, events, SealsInline(0), s2, Aborts(1, true, None), s3,
        InlineEnds(0, FINISHED), s4);
  }

  lemma AbortedInlineSteps(cfg: Config, s1: Scheduler) returns (s2: Scheduler, s3: Scheduler, s4: Scheduler)
    requires s1 == INITIAL.(runs := map[0 := PlannedRun(1, [], Running).(generationAtSubmit := Some(0))],
             nodes := map[1 := 0], order := [1],
                            tasks := map[0 := InlineBuild], nextRun := 1)
    ensures Possible(s1, SealsInline(0)) && s2 == Apply(cfg, s1, SealsInline(0))
    ensures Possible(s2, Aborts(1, true, None)) && s3 == Apply(cfg, s2, Aborts(1, true, None))
    ensures Possible(s3, InlineEnds(0, FINISHED)) && s4 == Apply(cfg, s3, InlineEnds(0, FINISHED))
    ensures !Disciplined(cfg, s2, Aborts(1, true, None))
    ensures 0 in s3.runs && s3.runs[0].AbortFailed() && 0 in s4.runs && s4.runs[0].state.Complete?
  {
    SealInlineEffect(cfg, s1, 0);
    s2 := SetTask(SetRun(s1, 0, s1.runs[0].(executionSealed := true)), 0, InlineRun);
    assert !AbortSpares(s2, 1);
    AbortEffect(cfg, s2, 1);
    s3 := Settle(s2, 0, Failed, Some(Failure(0, true)));
    assert s3.runs[0].AbortFailed() && 0 in s3.tasks && s3.tasks[0].InlineRun? && !s3.Stale(s3.runs[0]);
    hide Settle, Possible, Apply, AfterStepSuccess;
    InlineEndEffect(cfg, s3, 0, FINISHED.result);
    DoneCompletes(cfg, s3, 0);
    s4 := AfterStepSuccess(cfg, s3, 0, FINISHED.result);
  }

  /** Three more events of a trace. */
  lemma ExtendThree(cfg: Config, states0: seq<Scheduler>, events0: seq<Event>, e1: Event, s1: Scheduler, e2: Event,
          s2: Scheduler, e3: Event, s3: Scheduler)
    returns (states: seq<Scheduler>, events: seq<Event>)
    requires IsTrace(cfg, states0, events0)
    requires Possible(states0[|events0|], e1) && s1 == Apply(cfg, states0[|events0|], e1)
    requires Possible(s1, e2) && s2 == Apply(cfg, s1, e2)
    requires Possible(s2, e3) && s3 == Apply(cfg, s2, e3)
    ensures IsTrace(cfg, states, events) && states == states0 + [s1, s2, s3] && events == events0 + [e1, e2, e3]
  {
    hide Possible, Apply;
    ExtendTrace(cfg, states0, events0, e1);
    ExtendTrace(cfg, states0 + [s1], events0 + [e1], e2);
    ExtendTrace(cfg, states0 + [s1] + [s2], events0 + [e1] + [e2], e3);
    assert states0 + [s1] + [s2] + [s3] == states0 + [s1, s2, s3]
           && events0 + [e1] + [e2] + [e3] == events0 + [e1, e2, e3];
    states, events := states0 + [s1, s2, s3], events0 + [e1, e2, e3];
  }

  lemma DoneCompletes(cfg: Config, s: Scheduler, g: RunId)
    requires g in s.runs && !s.Stale(s.runs[g])
    ensures AfterStepSuccess(cfg, s, g, FINISHED.result).runs[g].state.Complete?
  {
    var run := s.runs[g];
    var done := SetRun(s, g, run.(generationAtSubmit := None,
        resultWire := WireOr(None, WireOr(run.resultWire, Some(EmptyWire)))));
    SettleShape(DropTask(done, g), g, Complete, None);
    hide Settle;
  }

  // --- pool reports and replaced runs -------------------------------------------------------

  /** The report of a mismatched step only queues for `g` what is queued for it already. */
  predicate Repeats(s: Scheduler, g: RunId, end: StepEnd)
    requires g in s.runs
  {
    && end.Returned? && (end.result.outcome.WaitDeps? || end.result.outcome.Persist?) && !s.Stale(s.runs[g])
    && Accepted(s.runs[g], end.result) == s.runs[g]
    && g in s.tasks && s.tasks[g] == QueuedBy(end.result)
  }

  /** The post-lock work a step's result asks for. */
  function QueuedBy(result: StepResult): Task
    requires result.outcome.WaitDeps? || result.outcome.Persist?
  {
    if result.outcome.Persist? then PersistQueued(result.persistThenContinue)
    else if result.waitRecovery.None? then SoftWait
    else Defer(result.waitRecovery.value)
  }

  /** A pool report leaves every run but the one whose work finished as it was, and its pending
      work too, exactly when that run was not replaced by one that is running, or the report
      asks for no more than the replacement is waiting for already. */
  lemma ReportHitsAnotherRunIff(cfg: Config, s: Scheduler, scope: ComputeScope, submitter: RunId, end: StepEnd)
    ensures OthersUnchanged(s, CompletePoolStep(cfg, s, scope, submitter, end), submitter) <==>
            ReportMatches(s, scope, submitter) || Repeats(s, s.nodes[scope], end)
  {
    var s' := CompletePoolStep(cfg, s, scope, submitter, end);
    if s.Has(scope) && s.Node(scope).state.Running? {
      var g := s.nodes[scope];
      ReportTouchesItsNode(cfg, s, scope, submitter, end);
      if submitter != g { MismatchedReport(cfg, s, scope, submitter, end); }
      hide CompletePoolStep, SameAt, Repeats;
    }
  }

  lemma ReportTouchesItsNode(cfg: Config, s: Scheduler, scope: ComputeScope, submitter: RunId, end: StepEnd)
    requires s.Has(scope) && s.Node(scope).state.Running?
    ensures forall h {:trigger SameAt(s, CompletePoolStep(cfg, s, scope, submitter, end), h)} ::
              h != s.nodes[scope] && h != submitter ==> SameAt(s, CompletePoolStep(cfg, s, scope, submitter, end), h)
  {
    var g := s.nodes[scope];
    var s1 := if submitter == g then s else DropTask(s, submitter);
    var s' := CompletePoolStep(cfg, s, scope, submitter, end);
    hide AfterStepSuccess, RaiseIn, SameAt;
    match end {
      case Raised(isAbort) => RaiseOthers(s1, g, Failure(g, isAbort));
      case Returned(result) => AfterStepOthers(cfg, s1, g, result);
    }
    forall h | h != g && h != submitter ensures SameAt(s, s', h) {
      DropOthers(s, submitter, h);
      assert SameAt(s1, s', h);
      SameTransitive(s, s1, s', h);
    }
  }

  lemma MismatchedReport(cfg: Config, s: Scheduler, scope: ComputeScope, submitter: RunId, end: StepEnd)
    requires s.Has(scope) && s.Node(scope).state.Running? && submitter != s.nodes[scope]
    ensures SameAt(s, CompletePoolStep(cfg, s, scope, submitter, end), s.nodes[scope]) <==>
            Repeats(s, s.nodes[scope], end)
  {
    var g := s.nodes[scope];
    var s1 := DropTask(s, submitter);
    var s' := CompletePoolStep(cfg, s, scope, submitter, end);
    assert Repeats(s1, g, end) <==> Repeats(s, g, end);
    assert SameAt(s, s', g) <==> SameAt(s1, s', g);
    match end {
      case Raised(isAbort) =>
        SettleShape(DropTask(s1, g), g, Failed, Some(Failure(g, isAbort)));
        hide Settle;
      case Returned(result) =>
        AfterStepSameIff(cfg, s1, g, result);
        hide AfterStepSuccess;
    }
  }

  /** The end of a running step always shows on its run or in its pending work, unless it asks
      for what is pending already. */
  lemma AfterStepSameIff(cfg: Config, s: Scheduler, g: RunId, result: StepResult)
    requires s.Running(g)
    ensures SameAt(s, AfterStepSuccess(cfg, s, g, result), g) <==> Repeats(s, g, Returned(result))
  {
    var s1 := SetRun(s, g, Accepted(s.runs[g], result));
    if s.Stale(s.runs[g]) {
      RequeueShape(cfg, s, g);
      hide RetryAfterEpochBump;
      StateShows(s, RetryAfterEpochBump(s, g), g);
    } else if result.outcome.WaitDeps? || result.outcome.Persist? {
      QueuedShows(s, g, Accepted(s.runs[g], result), QueuedBy(result));
      hide Accepted, SameAt;
    } else {
      AcceptedRuns(s.runs[g], result);
      hide Accepted, SameAt, ActOn;
      ActShows(cfg, s1, g, result);
      StateShows(s, ActOn(cfg, s1, g, result), g);
    }
  }

  lemma StateShows(s: Scheduler, s': Scheduler, g: RunId)
    requires g in s.runs && g in s'.runs && s'.runs[g].state != s.runs[g].state
    ensures !SameAt(s, s', g)
  {}

  lemma QueuedShows(s: Scheduler, g: RunId, run: NodeRun, task: Task)
    requires g in s.runs
    ensures SameAt(s, SetTask(SetRun(s, g, run), g, task), g) <==>
            run == s.runs[g] && g in s.tasks && s.tasks[g] == task
  {}

  lemma ActShows(cfg: Config, s: Scheduler, g: RunId, result: StepResult)
    requires s.Running(g) && !result.outcome.WaitDeps? && !result.outcome.Persist?
    ensures !ActOn(cfg, s, g, result).runs[g].state.Running?
  {
    RequeueShape(cfg, s, g);
    SettleShape(DropTask(s, g), g, Complete, None);
    ParkedShape(s, g);
    hide Settle, ContinueStep, ParkStep;
  }

  lemma AcceptedRuns(run: NodeRun, result: StepResult)
    ensures Accepted(run, result).state == run.state
  {}

  lemma ParkedShape(s: Scheduler, g: RunId)
    requires g in s.runs
    ensures s.runs[g].state.Running? ==> ParkStep(s, g).runs[g].state.Parked?
  {
    if s.runs[g].state.Running? {
      SettleShape(DropTask(SetRun(s, g, s.runs[g].(generationAtSubmit := None, executionSealed := false)), g), g,
          Parked, None);
      hide Settle;
    }
  }

  /** A run and its pending work are as they were. */
  ghost predicate SameAt(s: Scheduler, s': Scheduler, h: RunId) {
    && (h in s.runs <==> h in s'.runs) && (h in s.runs ==> s'.runs[h] == s.runs[h])
    && (h in s.tasks <==> h in s'.tasks) && (h in s.tasks ==> s'.tasks[h] == s.tasks[h])
  }

  ghost predicate OthersUnchanged(s: Scheduler, s': Scheduler, g: RunId) {
    forall h {:trigger SameAt(s, s', h)} :: h != g ==> SameAt(s, s', h)
  }

  lemma SameTransitive(s: Scheduler, s1: Scheduler, s2: Scheduler, h: RunId)
    requires SameAt(s, s1, h) && SameAt(s1, s2, h)
    ensures SameAt(s, s2, h)
  {}

  lemma DropOthers(s: Scheduler, g: RunId, h: RunId)
    requires h != g
    ensures SameAt(s, s, h) && SameAt(s, DropTask(s, g), h)
  {}

  lemma RaiseOthers(s: Scheduler, g: RunId, error: Failure)
    requires g in s.runs
    ensures OthersUnchanged(s, RaiseIn(s, g, error), g)
  {
    SettleOthers(DropTask(s, g), g, Failed, Some(error));
    hide Settle;
  }

  lemma SettleOthers(s: Scheduler, g: RunId, state: NodeState, error: Option<Failure>)
    requires g in s.runs
    ensures OthersUnchanged(s, Settle(s, g, state, error), g)
  {
  }

  lemma AfterStepOthers(cfg: Config, s: Scheduler, g: RunId, result: StepResult)
    requires g in s.runs
    ensures OthersUnchanged(s, AfterStepSuccess(cfg, s, g, result), g)
  {
    var s1 := SetRun(s, g, Accepted(s.runs[g], result));
    RequeueOthers(cfg, s, g);
    ActOthers(cfg, s1, g, result);
    RewrittenOthers(s, g, Accepted(s.runs[g], result), ActOn(cfg, s1, g, result));
    hide ActOn, RetryAfterEpochBump, Accepted, OthersUnchanged;
  }

  lemma RewrittenOthers(s: Scheduler, g: RunId, run: NodeRun, s': Scheduler)
    requires g in s.runs && OthersUnchanged(SetRun(s, g, run), s', g)
    ensures OthersUnchanged(s, s', g)
  {
    forall h | h != g ensures SameAt(s, s', h) { assert SameAt(SetRun(s, g, run), s', h); }
  }

  lemma ActOthers(cfg: Config, s: Scheduler, g: RunId, result: StepResult)
    requires g in s.runs
    ensures OthersUnchanged(s, ActOn(cfg, s, g, result), g)
  {
    hide OthersUnchanged, Settle, ContinueStep, ParkStep, DropTask;
    match result.outcome
    case Continue => RequeueOthers(cfg, s, g);
    case Park => ParkOthers(s, g);
    case WaitDeps => TaskOthers(s, g, if result.waitRecovery.None? then SoftWait else Defer(result.waitRecovery.value));
    case Persist => TaskOthers(s, g, PersistQueued(result.persistThenContinue));
    case Done => CompleteOthers(s, g);
  }

  lemma TaskOthers(s: Scheduler, g: RunId, task: Task)
    ensures OthersUnchanged(s, SetTask(s, g, task), g)
  {}

  lemma CompleteOthers(s: Scheduler, g: RunId)
    requires g in s.runs
    ensures OthersUnchanged(s, CompleteRun(s, g), g)
  {
    SettleOthers(DropTask(s, g), g, Complete, None);
    hide Settle;
  }

  lemma RequeueOthers(cfg: Config, s: Scheduler, g: RunId)
    requires g in s.runs
    ensures OthersUnchanged(s, RetryAfterEpochBump(s, g), g) && OthersUnchanged(s, ContinueStep(cfg, s, g), g)
  {
    QueuedOthers(s, g, RetryAfterEpochBump(s, g).runs[g]);
    QueuedOthers(s, g, ContinueStep(cfg, s, g).runs[g]);
    hide OthersUnchanged;
  }

  lemma QueuedOthers(s: Scheduler, g: RunId, run: NodeRun)
    requires g in s.runs
    ensures OthersUnchanged(s, Schedule(Enqueue(SetRun(DropTask(s, g), g, run), s.runs[g].scope), DispatchReady), g)
  {}

  lemma ParkOthers(s: Scheduler, g: RunId)
    requires g in s.runs
    ensures OthersUnchanged(s, ParkStep(s, g), g)
  {
    if s.runs[g].state.Running? {
      SettleOthers(DropTask(SetRun(s, g, s.runs[g].(generationAtSubmit := None, executionSealed := false)), g), g,
          Parked, None);
      hide Settle;
    }
  }

  /** A trace in which the late report of an aborted pool step completes the run that replaced
      it, whose own step has not even been handed to the pool. */
  lemma LateReportCompletesReplacement() returns (states: seq<Scheduler>, events: seq<Event>)
    ensures IsTrace(SingleStep(false), states, events) && |events| == 5
    ensures 1 in states[4].runs && states[4].Running(1) && 1 in states[4].tasks && states[4].tasks[1].PoolFlush?
    ensures events[4] == PoolReports(1, 0, FINISHED) && states[5].CompleteAt(1) && states[5].nodes[1] == 1
  {
    var cfg := SingleStep(false);
    states, events := StartTrace(cfg, 1, false);
    var s2, s3, s4, s5 := LateReportSteps(cfg, states[1]);
    hide *;
    states, events := ExtendThree(cfg, states, events, SealsPool(0), s2, Aborts(1, true, None), s3, SUBMITS_AGAIN, s4);
    ExtendTrace(cfg, states, events, PoolReports(1, 0, FINISHED));
    states, events := states + [s5], events + [PoolReports(1, 0, FINISHED)];
  }

  const SUBMITS_AGAIN := Submits(Ask(1, true), Plan([PlannedNode(1, [])], {}), OPEN)

  lemma LateReportSteps(cfg: Config, s1: Scheduler) returns (s2: Scheduler, s3: Scheduler, s4: Scheduler, s5: Scheduler)
    requires cfg == SingleStep(false)
    requires s1 == INITIAL.(runs := map[0 := PlannedRun(1, [], Running).(generationAtSubmit := Some(0))],
             nodes := map[1 := 0], order := [1],
                            tasks := map[0 := PoolFlush], nextRun := 1)
    ensures Possible(s1, SealsPool(0)) && s2 == Apply(cfg, s1, SealsPool(0))
    ensures Possible(s2, Aborts(1, true, None)) && s3 == Apply(cfg, s2, Aborts(1, true, None))
    ensures Possible(s3, SUBMITS_AGAIN) && s4 == Apply(cfg, s3, SUBMITS_AGAIN)
    ensures Possible(s4, PoolReports(1, 0, FINISHED)) && s5 == Apply(cfg, s4, PoolReports(1, 0, FINISHED))
    ensures 1 in s4.runs && s4.Running(1) && 1 in s4.tasks && s4.tasks[1].PoolFlush?
    ensures s5.CompleteAt(1) && s5.nodes[1] == 1
  {
    SealPoolEffect(cfg, s1, 0);
    s2 := SetTask(SetRun(s1, 0, s1.runs[0].(executionSealed := true)), 0, PoolWork);
    AbortEffect(cfg, s2, 1);
    s3 := Settle(s2, 0, Failed, Some(Failure(0, true)));
    hide Settle, CompletePoolStep, Submit, Apply, Possible;
    s4 := ReplacedAndBegun(cfg, s2);
    SubmitEffect(cfg, s3, Ask(1, true), Plan([PlannedNode(1, [])], {}));
    ReportEffect(cfg, s4, 1, 0, FINISHED);
    ReportCompletes(cfg, s4, 1, 0);
    s5 := CompletePoolStep(cfg, s4, 1, 0, FINISHED);
  }

  /** The table once the aborted run of the only scope has been taken out. */
  lemma OnlyScopeReplaced(s2: Scheduler, s3: Scheduler, gone: Scheduler)
    requires s2.nodes == map[1 := 0] && s2.order == [1] && s2.readyQueue == [] && s2.runs.Keys == {0}
             && s2.runs[0].scope == 1
    requires s3 == Settle(s2, 0, Failed, Some(Failure(0, true))) && s3.Has(1) && gone == Replace(s3, 1)
    ensures s3.nodes == map[1 := 0] && s3.runs[0].state.Failed?
    ensures gone.nodes == map[] && gone.order == [] && gone.readyQueue == [] && gone.tasks == s2.tasks
            && gone.nextRun == s2.nextRun
    ensures gone.faulted == s2.faulted
    ensures gone.runs.Keys == {0} && gone.runs[0].scope == 1
  {}

  lemma ReplacedAndBegun(cfg: Config, s2: Scheduler) returns (s4: Scheduler)
    requires cfg == SingleStep(false) && s2.nodes == map[1 := 0] && s2.order == [1] && s2.readyQueue == []
             && s2.nextRun == 1
    requires !s2.faulted
    requires s2.runs.Keys == {0} && s2.runs[0].scope == 1 && s2.runs[0].state.Running? && s2.tasks == map[0 := PoolWork]
    ensures s4 == Submit(cfg, Settle(s2, 0, Failed, Some(Failure(0, true))), Ask(1, true),
            Plan([PlannedNode(1, [])], {}), OPEN)
    ensures 0 in s4.runs && s4.runs[0].scope == 1 && 0 in s4.tasks && s4.tasks[0] == PoolWork
    ensures s4.Running(1) && 1 in s4.tasks && s4.tasks[1] == PoolFlush && s4.nodes == map[1 := 1]
    ensures !s4.Stale(s4.runs[1])
  {
    hide Submit, Settle, Replace;
    var s3 := Settle(s2, 0, Failed, Some(Failure(0, true)));
    FailedStays(s2, s3);
    var gone := Replace(s3, 1);
    OnlyScopeReplaced(s2, s3, gone);
    ReplacingSubmit(cfg, s3, gone);
    s4 := Submit(cfg, gone, Ask(1, false), Plan([PlannedNode(1, [])], {}), OPEN);
    SubmitOneBegins(cfg, gone, 1, false);
  }

  lemma FailedStays(s2: Scheduler, s3: Scheduler)
    requires s2.nodes == map[1 := 0] && s2.runs.Keys == {0} && s3 == Settle(s2, 0, Failed, Some(Failure(0, true)))
    ensures s3.Has(1) && s3.Node(1).IsTerminal()
  {}

  /** A force-fresh submission over a terminal run is the plain submission once it is gone. */
  lemma ReplacingSubmit(cfg: Config, s3: Scheduler, gone: Scheduler)
    requires s3.Has(1) && s3.Node(1).IsTerminal() && gone == Replace(s3, 1) && gone.nodes == map[]
    ensures Submit(cfg, s3, Ask(1, true), Plan([PlannedNode(1, [])], {}), OPEN)
            == Submit(cfg, gone, Ask(1, false), Plan([PlannedNode(1, [])], {}), OPEN)
  {
    ForceIrrelevant(cfg, gone);
    hide Dispatch, PlanSubmission, Replace;
    assert SubmitPrepare(cfg, s3, Ask(1, true), Plan([PlannedNode(1, [])], {}))
           == PlanSubmission(cfg, gone, Ask(1, true), Plan([PlannedNode(1, [])], {}));
    assert SubmitPrepare(cfg, gone, Ask(1, false), Plan([PlannedNode(1, [])], {}))
           == PlanSubmission(cfg, gone, Ask(1, false), Plan([PlannedNode(1, [])], {}));
  }

  /** On a scope that is not in the table, a force-fresh request plans just like a plain one. */
  lemma ForceIrrelevant(cfg: Config, s: Scheduler)
    requires s.nodes == map[]
    ensures PlanSubmission(cfg, s, Ask(1, true), Plan([PlannedNode(1, [])], {}))
            == PlanSubmission(cfg, s, Ask(1, false), Plan([PlannedNode(1, [])], {}))
  {
    var nodes := [PlannedNode(1, [])];
    assert Register(cfg, s, nodes[0], Ask(1, true), {}) == Register(cfg, s, nodes[0], Ask(1, false), {});
    assert nodes[1..] == [];
    assert RegisterAll(cfg, s, nodes, Ask(1, true), {}) == RegisterAll(cfg, s, nodes, Ask(1, false), {});
    hide RefreshEach, RegisterAll;
  }

  lemma ReportCompletes(cfg: Config, s: Scheduler, scope: ComputeScope, submitter: RunId)
    requires s.Has(scope) && s.Node(scope).state.Running? && s.nodes[scope] != submitter && !s.Stale(s.Node(scope))
    ensures CompletePoolStep(cfg, s, scope, submitter, FINISHED).CompleteAt(scope)
    ensures CompletePoolStep(cfg, s, scope, submitter, FINISHED).nodes == s.nodes
  {
    var g := s.nodes[scope];
    var s1 := DropTask(s, submitter);
    DoneCompletes(cfg, s1, g);
    var run := s1.runs[g];
    var done := SetRun(s1, g, run.(generationAtSubmit := None,
        resultWire := WireOr(None, WireOr(run.resultWire, Some(EmptyWire)))));
    assert AfterStepSuccess(cfg, s1, g, FINISHED.result) == CompleteRun(done, g);
  }
}
