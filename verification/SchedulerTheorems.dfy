/** The main results about runs of the orchestrator. */
module SchedulerTheorems {
  import opened Prelude
  import opened Scheduler
  import opened SchedulerInvariants
  import opened SchedulerFinish
  import opened SchedulerSubmit
  import opened SchedulerEvents

  // --- safety of every run ------------------------------------------------------------------

  lemma RunWorkKeeps(cfg: Config, s: Scheduler, e: Event)
    requires Inv(cfg, s) && Possible(s, e) && Disciplined(cfg, s, e)
    requires e.SealsInline? || e.BuildRaises? || e.InlineEnds? || e.SealsPool? || e.HandOffRaises?
    ensures EventKeeps(cfg, s, Apply(cfg, s, e)) && Apply(cfg, s, e).faulted == s.faulted
  {
    RunWorkMoves(cfg, s, e);
    hide Apply, Moves, Inv;
    MovesKeep(cfg, s, Apply(cfg, s, e), e.g);
  }

  lemma RunWorkMoves(cfg: Config, s: Scheduler, e: Event)
    requires Inv(cfg, s) && Possible(s, e) && Disciplined(cfg, s, e)
    requires e.SealsInline? || e.BuildRaises? || e.InlineEnds? || e.SealsPool? || e.HandOffRaises?
    ensures e.g in s.runs && Moves(cfg, s, Apply(cfg, s, e), e.g)
  {
    var g := e.g;
    CoreRun(cfg, s, g);
    hide Core, Wakes, Moves, AfterStepSuccess, RaiseIn, RunOk;
    if s.runs[g].state.Running? {
      match e {
        case SealsInline(_) => SealKeeps(cfg, s, g, InlineRun);
        case SealsPool(_) => SealKeeps(cfg, s, g, PoolWork);
        case BuildRaises(_, isAbort) => RaiseKeeps(cfg, s, g, isAbort);
        case HandOffRaises(_, isAbort) => RaiseKeeps(cfg, s, g, isAbort);
        case InlineEnds(_, end) =>
          if end.Raised? { RaiseKeeps(cfg, s, g, end.isAbort); } else { AfterStepKeeps(cfg, s, g, end.result); }
      }
    } else {
      assert s.runs[g].state.Failed? && !e.InlineEnds?;
      if e.BuildRaises? { RaiseKeeps(cfg, s, g, e.isAbort); } else { LeftoverDropped(cfg, s, g); }
    }
  }

  lemma PostLockKeeps(cfg: Config, s: Scheduler, e: Event)
    requires Inv(cfg, s) && Possible(s, e) && Disciplined(cfg, s, e)
    requires e.SoftWaits? || e.Defers? || e.PersistChecks? || e.PersistWrites? || e.PersistRaises? || e.PersistDefers?
             || e.PersistFinishes?
    ensures EventKeeps(cfg, s, Apply(cfg, s, e)) && Apply(cfg, s, e).faulted == s.faulted
  {
    if e.SoftWaits? || e.Defers? || e.PersistDefers? { DeferralMoves(cfg, s, e); } else { PersistMoves(cfg, s, e); }
    hide Apply, Moves, Inv;
    MovesKeep(cfg, s, Apply(cfg, s, e), e.g);
  }

  lemma DeferralMoves(cfg: Config, s: Scheduler, e: Event)
    requires Inv(cfg, s) && Possible(s, e) && Disciplined(cfg, s, e)
    requires e.SoftWaits? || e.Defers? || e.PersistDefers?
    ensures e.g in s.runs && Moves(cfg, s, Apply(cfg, s, e), e.g)
  {
    var g := e.g;
    CoreRun(cfg, s, g);
    hide Core, Wakes, Moves, DemoteSoftly, RecoverOnDependency;
    match e {
      case SoftWaits(_) => DemoteSoftlyKeeps(cfg, s, g);
      case Defers(_) => RecoverKeeps(cfg, s, g, s.tasks[g].recovery);
      case PersistDefers(_, recovery) => RecoverKeeps(cfg, s, g, recovery);
    }
  }

  lemma PersistMoves(cfg: Config, s: Scheduler, e: Event)
    requires Inv(cfg, s) && Possible(s, e)
    requires e.PersistChecks? || e.PersistWrites? || e.PersistRaises? || e.PersistFinishes?
    ensures e.g in s.runs && Moves(cfg, s, Apply(cfg, s, e), e.g)
  {
    var g := e.g;
    CoreRun(cfg, s, g);
    hide Core, Wakes, Moves, RunOk, PersistCheck, PersistWrite, PersistFinish, RaiseIn;
    match e {
      case PersistChecks(_) => PersistCheckKeeps(cfg, s, g);
      case PersistWrites(_) => PersistWriteKeeps(cfg, s, g);
      case PersistRaises(_, isAbort) =>
        if s.runs[g].state.Running? { RaiseKeeps(cfg, s, g, isAbort); } else { LeftoverDropped(cfg, s, g); }
      case PersistFinishes(_) => PersistFinishKeeps(cfg, s, g);
    }
  }

  lemma CallerKeeps(cfg: Config, s: Scheduler, e: Event)
    requires Inv(cfg, s) && !s.faulted && Possible(s, e) && Disciplined(cfg, s, e)
    requires e.Submits? || e.Ensures? || e.WakesParked? || e.PlanningRaises? || e.Dispatches? || e.RunsIdle?
             || e.RunsCallback? || e.Wipes?
    ensures !Apply(cfg, s, e).faulted ==> EventKeeps(cfg, s, Apply(cfg, s, e))
  {
    hide Core, Wakes, Submit, EnsureSubmit, Dispatch, RunCallback, Replace, RefreshEach, Wipe;
    match e {
      case Submits(req, plan, o) => SubmitEventKeeps(cfg, s, req, plan, o);
      case Ensures(req, plan, o) => EnsureEventKeeps(cfg, s, req, plan, o);
      case WakesParked(req, plan, o) => SubmitEventKeeps(cfg, s, req, plan, o);
      case PlanningRaises(scope) => InvIsCoreAndWakes(cfg, s); ReplaceKeeps(cfg, s, scope);
      case Dispatches(o) => PrepareThenDispatch(cfg, s, s, o);
      case RunsIdle(o) => IdleKeeps(cfg, s, o);
      case RunsCallback(cb, plan, o) =>
        match cb {
          case DispatchReady => DispatchReadyRuns(cfg, s, plan, o);
          case DependencyTerminal(x) => DependencyTerminalRuns(cfg, s, x, plan, o);
          case ForceFresh(_, _, _, _) => ForceFreshRuns(cfg, s, cb, plan, o);
        }
      case Wipes(scopes) => WipeKeeps(cfg, s, scopes);
    }
  }

  /** Every event keeps the invariant and the two-state guarantees. */
  lemma EachEventKeeps(cfg: Config, s: Scheduler, e: Event)
    requires Inv(cfg, s) && !s.faulted && Possible(s, e) && Disciplined(cfg, s, e)
    ensures !Apply(cfg, s, e).faulted ==> Inv(cfg, Apply(cfg, s, e)) && Guarantees(s, Apply(cfg, s, e))
  {
    hide Core, Wakes, Apply, Possible;
    if e.SealsInline? || e.BuildRaises? || e.InlineEnds? || e.SealsPool? || e.HandOffRaises? {
      RunWorkKeeps(cfg, s, e);
    } else if e.SoftWaits? || e.Defers? || e.PersistChecks? || e.PersistWrites? || e.PersistRaises?
        || e.PersistDefers? || e.PersistFinishes? {
      PostLockKeeps(cfg, s, e);
    } else if e.PoolReports? {
      PoolReportKeeps(cfg, s, e);
    } else if e.Aborts? {
      AbortIs(cfg, s, e);
      AbortEventKeeps(cfg, s, e.scope, e.isAbort, e.expected);
    } else {
      CallerKeeps(cfg, s, e);
    }
  }

  lemma AbortIs(cfg: Config, s: Scheduler, e: Event)
    requires e.Aborts?
    ensures Possible(s, e) && Apply(cfg, s, e) == Abort(s, e.scope, e.isAbort, e.expected)
    ensures Disciplined(cfg, s, e) ==> AbortSpares(s, e.scope)
  {
  }

  /** A run: a trace of disciplined events in which no section was left by an internal error. */
  ghost predicate IsRun(cfg: Config, states: seq<Scheduler>, events: seq<Event>) {
    && IsTrace(cfg, states, events)
    && (forall i {:trigger events[i]} :: 0 <= i < |events| ==> Disciplined(cfg, states[i], events[i]))
    && (forall i {:trigger states[i]} :: 0 <= i < |states| ==> !states[i].faulted)
  }

  lemma InitialOk(cfg: Config)
    ensures Inv(cfg, INITIAL) && !INITIAL.faulted
  {
  }

  lemma RunStep(cfg: Config, states: seq<Scheduler>, events: seq<Event>, i: nat)
    requires IsRun(cfg, states, events) && 0 < i < |states|
    ensures Possible(states[i - 1], events[i - 1]) && Disciplined(cfg, states[i - 1], events[i - 1])
    ensures states[i] == Apply(cfg, states[i - 1], events[i - 1])
    ensures !states[i - 1].faulted && !states[i].faulted
  {
    hide Possible, Apply, Disciplined;
    assert events[i - 1] == events[i - 1];
  }

  /** In every reachable state of every interleaving the invariant holds. */
  lemma {:induction false} EveryRunIsSafe(cfg: Config, states: seq<Scheduler>, events: seq<Event>, i: nat)
    requires IsRun(cfg, states, events) && i < |states|
    ensures Inv(cfg, states[i])
    ensures i > 0 ==> Guarantees(states[i - 1], states[i])
  {
    if i == 0 {
      InitialOk(cfg);
    } else {
      hide Inv, Guarantees, Apply, Possible, Disciplined;
      assert |states| == |events| + 1;
      hide IsRun;
      EveryRunIsSafe(cfg, states, events, i - 1);
      RunStep(cfg, states, events, i);
      EachEventKeeps(cfg, states[i - 1], events[i - 1]);
    }
  }

  /** At every lock release the ready queue holds exactly the ready nodes, each once. */
  lemma ReadyQueueIsExact(cfg: Config, states: seq<Scheduler>, events: seq<Event>, i: nat, x: ComputeScope)
    requires IsRun(cfg, states, events) && i < |states|
    ensures NoDup(states[i].readyQueue)
    ensures x in states[i].readyQueue <==>
            x in states[i].nodes && states[i].nodes[x] in states[i].runs && states[i].Node(x).state.Ready?
  {
    EveryRunIsSafe(cfg, states, events, i);
    assert x in states[i].readyQueue <==> states[i].IsReady(x);
  }

  /** A complete node carries a wire, unless it stands in for a satisfied root and never ran. */
  lemma CompleteNodesCarryWires(cfg: Config, states: seq<Scheduler>, events: seq<Event>, i: nat, g: RunId)
    requires IsRun(cfg, states, events) && i < |states| && g in states[i].runs && states[i].runs[g].state.Complete?
    ensures states[i].runs[g].resultWire.Some?
            || (states[i].runs[g].stepIndex == 0 && states[i].runs[g].dependencyScopes == [])
    ensures g !in states[i].tasks
  {
    EveryRunIsSafe(cfg, states, events, i);
    assert RunOk(cfg, states[i], g);
  }

  // --- terminal absorption and waiters ------------------------------------------------------

  /** Once a run is terminal its record never changes again, in any continuation of the run. */
  lemma {:induction false} TerminalRunsNeverChange(cfg: Config, states: seq<Scheduler>, events: seq<Event>, i: nat,
          j: nat, g: RunId)
    requires IsRun(cfg, states, events) && i <= j < |states|
    requires g in states[i].runs && states[i].runs[g].IsTerminal()
    ensures g in states[j].runs && states[j].runs[g] == states[i].runs[g]
    decreases j
  {
    if i < j {
      TerminalRunsNeverChange(cfg, states, events, i, j - 1, g);
      EveryRunIsSafe(cfg, states, events, j);
    }
  }

  /** A run never goes back: over any stretch of a run of the orchestrator its priority does not
      get worse, its step counters do not fall and its edges are only extended. */
  lemma {:induction false} RunsOnlyProgress(cfg: Config, states: seq<Scheduler>, events: seq<Event>, i: nat, j: nat,
          g: RunId)
    requires IsRun(cfg, states, events) && i <= j < |states| && g in states[i].runs
    ensures g in states[j].runs && states[j].runs[g].scope == states[i].runs[g].scope
    ensures Progresses(states[i].runs[g], states[j].runs[g])
    decreases j
  {
    if i < j {
      RunsOnlyProgress(cfg, states, events, i, j - 1, g);
      EveryRunIsSafe(cfg, states, events, j);
      hide IsRun, Inv;
      assert Progresses(states[j - 1].runs[g], states[j].runs[g]);
    }
  }

  /** A waiter is listed on its run while the run is going, and afterwards holds exactly the
      error of the outcome it waited for, for ever. */
  lemma WaitersGetTheirOutcome(cfg: Config, states: seq<Scheduler>, events: seq<Event>, i: nat, h: HandleId)
    requires IsRun(cfg, states, events) && i < |states| && h in states[i].handles
    ensures states[i].handles[h].run in states[i].runs
    ensures var run := states[i].runs[states[i].handles[h].run];
            if run.IsTerminal()
                then states[i].handles[h].error == run.error
                && (run.state.Complete? <==> states[i].handles[h].error.None?)
            else h in run.waiters && states[i].handles[h].error.None?
  {
    EveryRunIsSafe(cfg, states, events, i);
    var s := states[i];
    assert HandleOk(s, h);
    assert RunOk(cfg, s, s.handles[h].run);
  }

  // --- deadlock freedom ---------------------------------------------------------------------

  /** Nothing is left to do on its own: no ready node, nothing in flight, no callback. */
  ghost predicate Quiescent(s: Scheduler) {
    s.readyQueue == [] && s.callbacks == multiset{} && forall g :: g in s.runs ==> !s.Running(g)
  }

  /** Where a blocked chain may end: a scope that was never planned, is parked or failed, or
      itself awaits an external wake. */
  ghost predicate Explained(s: Scheduler, x: ComputeScope) {
    || !s.Has(x)
    || s.Node(x).state.Parked? || s.Node(x).state.Failed?
    || (s.Node(x).state.WaitingDeps? && s.Node(x).awaitsExternalWake)
  }

  /** A chain of dependency edges along incomplete nodes. */
  ghost predicate BlockedChain(s: Scheduler, path: seq<ComputeScope>) {
    && path != []
    && !s.CompleteAt(path[0])
    && (|path| > 1 ==> DependsOn(s, path[0], path[1]) && BlockedChain(s, path[1..]))
  }

  /** Deadlock freedom: in a quiescent state every waiting node is blocked, through finitely
      many incomplete dependencies, by a scope whose standstill is deliberate or a failure. */
  lemma {:induction false} NoDeadlock(cfg: Config, s: Scheduler, x: ComputeScope) returns (path: seq<ComputeScope>)
    requires Inv(cfg, s) && Quiescent(s) && s.Has(x) && s.Node(x).state.WaitingDeps?
    ensures BlockedChain(s, path) && path[0] == x && Explained(s, path[|path| - 1])
    decreases cfg.rank(x)
  {
    var run := s.Node(x);
    if run.awaitsExternalWake {
      path := [x];
    } else {
      var g := s.nodes[x];
      assert WakeOk(s, g) && RunOk(cfg, s, g);
      assert run.scope == x;
      var d :| d in run.dependencyScopes && !s.CompleteAt(d);
      var rest := [d];
      if s.Has(d) && s.Node(d).state.WaitingDeps? {
        rest := NoDeadlock(cfg, s, d);
      } else if s.Has(d) {
        assert !s.Running(s.nodes[d]);
        assert d !in s.readyQueue && !s.IsReady(d);
      }
      path := [x] + rest;
      assert path[1..] == rest;
    }
  }

  /** So no run of the orchestrator can deadlock in a graph of waiting nodes. */
  lemma RunsNeverDeadlock(cfg: Config, states: seq<Scheduler>, events: seq<Event>, i: nat, x: ComputeScope)
          returns (path: seq<ComputeScope>)
    requires IsRun(cfg, states, events) && i < |states| && Quiescent(states[i])
    requires states[i].Has(x) && states[i].Node(x).state.WaitingDeps?
    ensures BlockedChain(states[i], path) && path[0] == x && Explained(states[i], path[|path| - 1])
  {
    EveryRunIsSafe(cfg, states, events, i);
    path := NoDeadlock(cfg, states[i], x);
  }

  // --- failure provenance -------------------------------------------------------------------

  ghost predicate BlameChain(s: Scheduler, path: seq<RunId>) {
    path != [] && (|path| > 1 ==> Blames(s, path[0], path[1]) && BlameChain(s, path[1..]))
  }

  /** Every failure leads, through failed dependencies with the same error, to the run that
      raised it; an intentional abort leads nowhere but to the aborted run itself. */
  lemma {:induction false} FailuresHaveASource(cfg: Config, s: Scheduler, g: RunId) returns (path: seq<RunId>)
    requires Inv(cfg, s) && g in s.runs && s.runs[g].state.Failed?
    ensures BlameChain(s, path) && path[0] == g
    ensures s.runs[g].error.Some? && path[|path| - 1] == s.runs[g].error.value.origin
    ensures s.runs[g].error.value.isAbort ==> path == [g]
    decreases if g in s.runs then cfg.rank(s.runs[g].scope) else 0
  {
    assert RunOk(cfg, s, g);
    if s.runs[g].error.value.origin == g {
      path := [g];
    } else {
      var source :| Blames(s, g, source);
      assert RunOk(cfg, s, source);
      var rest := FailuresHaveASource(cfg, s, source);
      path := [g] + rest;
      assert path[1..] == rest;
    }
  }

  /** In no run does an intentional abort fail a node other than the aborted one. */
  lemma AbortsFailNobodyElse(cfg: Config, states: seq<Scheduler>, events: seq<Event>, i: nat, g: RunId)
    requires IsRun(cfg, states, events) && i < |states| && g in states[i].runs && states[i].runs[g].state.Failed?
    ensures states[i].runs[g].error.Some? && (states[i].runs[g].error.value.isAbort ==>
            states[i].runs[g].error.value.origin == g)
  {
    EveryRunIsSafe(cfg, states, events, i);
    var path := FailuresHaveASource(cfg, states[i], g);
  }

  // --- epochs and persistence ---------------------------------------------------------------

  lemma SettleShape(s: Scheduler, g: RunId, state: NodeState, error: Option<Failure>)
    requires g in s.runs
    ensures Settle(s, g, state, error).runs[g].state == state
            && Settle(s, g, state, error).runs[g].resultWire == s.runs[g].resultWire
    ensures Settle(s, g, state, error).epochs == s.epochs
  {
  }

  lemma RequeueShape(cfg: Config, s: Scheduler, g: RunId)
    requires g in s.runs
    ensures RetryAfterEpochBump(s, g).runs[g].state.Ready? && RetryAfterEpochBump(s, g).epochs == s.epochs
    ensures ContinueStep(cfg, s, g).runs[g].state.Ready? && ContinueStep(cfg, s, g).epochs == s.epochs
  {
  }

  lemma ParkShape(s: Scheduler, g: RunId)
    requires g in s.runs && !s.runs[g].state.Complete?
    ensures !ParkStep(s, g).runs[g].state.Complete? && ParkStep(s, g).epochs == s.epochs
  {
    if s.runs[g].state.Running? {
      var s1 := DropTask(SetRun(s, g, s.runs[g].(generationAtSubmit := None, executionSealed := false)), g);
      SettleShape(s1, g, Parked, None);
      hide Settle;
      assert ParkStep(s, g) == Settle(s1, g, Parked, None);
    }
  }

  /** A step's own result completes its run only when it says so, and only under the generation
      the step began with. */
  lemma AfterStepCompletes(cfg: Config, s: Scheduler, g: RunId, result: StepResult)
    requires g in s.runs && !s.runs[g].state.Complete?
    ensures AfterStepSuccess(cfg, s, g, result).epochs == s.epochs
    ensures AfterStepSuccess(cfg, s, g, result).runs[g].state.Complete? ==>
              !s.Stale(s.runs[g]) && result.outcome.Done?
                  && AfterStepSuccess(cfg, s, g, result).runs[g].resultWire.Some?
  {
    var run := s.runs[g];
    var wire := WireOr(result.payload, run.resultWire);
    var cleared := SetRun(s, g, run.(generationAtSubmit := None, resultWire := wire));
    var done := SetRun(s, g, run.(generationAtSubmit := None,
        resultWire := WireOr(result.payload, WireOr(run.resultWire, Some(EmptyWire)))));
    RequeueShape(cfg, s, g);
    RequeueShape(cfg, cleared, g);
    ParkShape(cleared, g);
    SettleShape(DropTask(done, g), g, Complete, None);
    hide Settle, ContinueStep, ParkStep, RetryAfterEpochBump;
    match result.outcome
    case Continue =>
    case Park =>
    case WaitDeps =>
    case Persist =>
    case Done =>
  }

  /** A step's result makes its run complete only under the generation it began with; after a
      persist the artifact is still stored at that instant; and the run carries a wire. */
  lemma CompletionIsFresh(cfg: Config, s: Scheduler, e: Event, g: RunId)
    requires Inv(cfg, s) && !s.faulted && Possible(s, e) && Disciplined(cfg, s, e) && Finishes(s, e, g)
    requires !s.runs[g].state.Complete? && g in Apply(cfg, s, e).runs && Apply(cfg, s, e).runs[g].state.Complete?
    ensures s.Running(g) && s.runs[g].generationAtSubmit == Some(s.Epoch(s.runs[g].scope))
    ensures Apply(cfg, s, e).epochs == s.epochs
    ensures Apply(cfg, s, e).runs[g].resultWire.Some?
    ensures e.PersistFinishes? ==> s.runs[g].scope in Apply(cfg, s, e).durable
  {
    CoreRun(cfg, s, g);
    hide Core, Wakes, Inv;
    if e.PersistFinishes? {
      RequeueShape(cfg, s, g);
      SettleShape(DropTask(s, g), g, Complete, None);
      hide ContinueStep, RetryAfterEpochBump, Settle;
    } else {
      StepEndCompletes(cfg, s, e, g);
    }
  }

  lemma StepEndCompletes(cfg: Config, s: Scheduler, e: Event, g: RunId)
    requires Possible(s, e) && Finishes(s, e, g) && !e.PersistFinishes? && !s.runs[g].state.Complete?
    requires g in Apply(cfg, s, e).runs && Apply(cfg, s, e).runs[g].state.Complete?
    ensures !s.Stale(s.runs[g]) && Apply(cfg, s, e).epochs == s.epochs && Apply(cfg, s, e).runs[g].resultWire.Some?
  {
    hide AfterStepSuccess, Settle;
    SettleShape(DropTask(s, g), g, Failed, Some(Failure(g, e.end.Raised? && e.end.isAbort)));
    if e.end.Returned? { AfterStepCompletes(cfg, s, g, e.end.result); }
  }

  /** The event is the end of run `g`'s current step. */
  ghost predicate Finishes(s: Scheduler, e: Event, g: RunId) {
    && g in s.runs
    && match e
       case InlineEnds(h, _) => h == g
       case PersistFinishes(h) => h == g
       case PoolReports(scope, h, _) => h == g && s.Has(scope) && s.nodes[scope] == g && s.runs[g].state.Running?
       case _ => false
  }

  /** While a step has not lost its captured generation, that generation is the one current
      when the step began, and the step has been running ever since. */
  lemma {:induction false} StepBeganUnder(cfg: Config, states: seq<Scheduler>, events: seq<Event>, j: nat, g: RunId)
          returns (i: nat)
    requires IsRun(cfg, states, events) && j < |states| && states[j].Running(g)
             && states[j].runs[g].generationAtSubmit.Some?
    ensures i < j && !states[i].Running(g)
    ensures forall k :: i < k <= j ==> states[k].Running(g) && states[k].runs[g].scope == states[j].runs[g].scope
    ensures states[j].runs[g].generationAtSubmit == Some(states[i + 1].Epoch(states[j].runs[g].scope))
    ensures states[i + 1].Running(g) && states[i + 1].DepsComplete(states[i + 1].runs[g])
    ensures var x := states[j].runs[g].scope;
            forall k {:trigger states[k]} :: i < k <= j ==>
              states[i + 1].Epoch(x) <= states[k].Epoch(x) <= states[j].Epoch(x)
    decreases j
  {
    assert j > 0 by { assert states[0] == INITIAL; }
    EveryRunIsSafe(cfg, states, events, j);
    hide Inv, IsRun;
    var x := states[j].runs[g].scope;
    if states[j - 1].Running(g) {
      assert Keeps(states[j - 1].runs[g], states[j].runs[g]);
      i := StepBeganUnder(cfg, states, events, j - 1, g);
      assert states[j - 1].Epoch(x) <= states[j].Epoch(x);
    } else {
      i := j - 1;
      assert BeganSoundly(states[j], g);
    }
  }

  /** Epoch and persist safety of every run: when a step's result completes a node, the scope
      was not invalidated at any moment since that step began, the step began on complete
      dependencies, and a persisted artifact is still stored. */
  lemma CompletedResultsAreCurrent(cfg: Config, states: seq<Scheduler>, events: seq<Event>, j: nat, g: RunId)
          returns (i: nat)
    requires IsRun(cfg, states, events) && j < |events| && Finishes(states[j], events[j], g)
    requires !states[j].runs[g].state.Complete? && g in states[j + 1].runs && states[j + 1].runs[g].state.Complete?
    ensures i < j && !states[i].Running(g) && (forall k :: i < k <= j ==> states[k].Running(g))
    ensures forall k :: i < k <= j + 1 ==>
            states[k].Epoch(states[j].runs[g].scope) == states[i + 1].Epoch(states[j].runs[g].scope)
    ensures g in states[i + 1].runs && states[i + 1].DepsComplete(states[i + 1].runs[g])
    ensures states[j + 1].runs[g].resultWire.Some?
    ensures events[j].PersistFinishes? ==> states[j].runs[g].scope in states[j + 1].durable
  {
    EveryRunIsSafe(cfg, states, events, j);
    assert !states[j].faulted;
    CompletionIsFresh(cfg, states[j], events[j], g);
    i := StepBeganUnder(cfg, states, events, j, g);
  }

  // --- satisfaction short-circuit -----------------------------------------------------------

  ghost predicate Keyed(s: Scheduler) {
    forall x {:trigger s.nodes[x]} :: x in s.nodes ==> s.nodes[x] in s.runs && s.runs[s.nodes[x]].scope == x
  }

  lemma {:induction false} PickCompletesNothing(s: Scheduler, admit: (ComputeScope, nat) -> bool, round: nat,
          budget: nat)
    requires Keyed(s)
    ensures Keyed(Pick(s, admit, round, budget).0)
    ensures forall x :: Pick(s, admit, round, budget).0.CompleteAt(x) ==> s.CompleteAt(x)
    decreases budget
  {
    if budget != 0 && s.readyQueue != [] {
      var scope := s.readyQueue[0];
      var s1 := s.(readyQueue := s.readyQueue[1..]);
      if !s.IsReady(scope) {
        PickCompletesNothing(s1, admit, round, budget - 1);
      } else if !s.DepsComplete(s.Node(scope)) {
        PickCompletesNothing(SetRun(s1, s.nodes[scope],
            s.Node(scope).(state := WaitingDeps, awaitsExternalWake := false)), admit, round, budget - 1);
      } else if !admit(scope, round) {
        PickCompletesNothing(s1.(readyQueue := s1.readyQueue + [scope]), admit, round, budget - 1);
      }
    }
  }

  lemma ChosenCompletesOne(s: Scheduler, scope: ComputeScope, hydrated: Option<Wire>, x: ComputeScope)
    requires Keyed(s) && s.IsReady(scope) && !s.CompleteAt(x)
    ensures var s1 := ShortCircuit(s, s.nodes[scope], hydrated);
            Keyed(s1) && (s1.CompleteAt(x) ==> x == scope && s1.Node(x).resultWire.Some?)
    ensures Keyed(Begin(s, s.nodes[scope], InlineBuild)) && !Begin(s, s.nodes[scope], InlineBuild).CompleteAt(x)
  {
    var s1 := ShortCircuit(s, s.nodes[scope], hydrated);
    if s1.CompleteAt(x) { assert s.nodes[x] == s.nodes[scope] && s.nodes[scope] in s.runs; }
  }

  /** Every node a dispatch pass completes was reported satisfied in it. */
  lemma {:induction false} DispatchCompletesOnlySatisfied(cfg: Config, s: Scheduler, o: DispatchOracle, round: nat,
          x: ComputeScope)
    requires Keyed(s) && !s.CompleteAt(x) && Dispatch(cfg, s, o, round).CompleteAt(x)
    ensures exists n :: o.satisfied(x, n)
    decreases |s.readyQueue|
  {
    if s.readyQueue != [] {
      var (s1, pick) := Pick(s, o.admit, round, |s.readyQueue|);
      PickCompletesNothing(s, o.admit, round, |s.readyQueue|);
      if pick.Some? {
        hide Pick;
        var scope := pick.value;
        var g := s1.nodes[scope];
        ChosenCompletesOne(s1, scope, o.hydrated(scope, round), x);
        hide Keyed;
        if |cfg.Steps(scope)| <= s1.runs[g].profileStepIndex {
        } else if o.satisfied(scope, round) {
          if x != scope { DispatchCompletesOnlySatisfied(cfg, ShortCircuit(s1, g, o.hydrated(scope, round)), o,
              round + 1, x); }
        } else if cfg.Steps(scope)[s1.runs[g].profileStepIndex].isInline && !s1.WirelessDependency(s1.runs[g]) {
          DispatchCompletesOnlySatisfied(cfg, Begin(s1, g, InlineBuild), o, round + 1, x);
        }
      }
    }
  }
}
