/**
What each event does, said of the states before and after it: how a step's result moves its run,
what a deferral asks for, what an abort, a raise, a seal and a wipe change, and which band an
attached request leaves.
*/
module SchedulerEffects {
  import opened Prelude
  import opened Scheduler
  import opened SchedulerInvariants
  import opened SchedulerSubmit
  import opened SchedulerEvents
  import opened SchedulerFaults
  import opened SchedulerWires

  // --- results of steps ---------------------------------------------------------------------

  /** Back in the queue, with no work of its own left and a dispatch pass to come. */
  ghost predicate Requeued(s': Scheduler, g: RunId) {
    && g in s'.runs && s'.runs[g].state.Ready? && !s'.runs[g].executionSealed && g !in s'.tasks
    && s'.runs[g].scope in s'.readyQueue && DispatchReady in s'.callbacks
  }

  /** To the next step of the profile if that is of another kind, else again to the same. */
  predicate Advances(steps: seq<StepSpec>, before: nat, after: nat) {
    if before + 1 < |steps| && steps[before + 1].stepKind != steps[before].stepKind then after == before + 1
    else after == before
  }

  predicate SameSteps(before: NodeRun, after: NodeRun) {
    after.stepIndex == before.stepIndex && after.profileStepIndex == before.profileStepIndex
  }

  /** Scope, edges, band and bundle of the run are as before. */
  predicate SameRequest(before: NodeRun, after: NodeRun) {
    && after.scope == before.scope && after.dependencyScopes == before.dependencyScopes
    && after.priorityBand == before.priorityBand && after.bundle == before.bundle
  }

  /** Over, without an error, and the dependents will hear of it. */
  ghost predicate Finished(s': Scheduler, g: RunId) {
    && g in s'.runs && s'.runs[g].state.Complete? && s'.runs[g].error.None? && g !in s'.tasks
    && DependencyTerminal(s'.runs[g].scope) in s'.callbacks
  }

  ghost predicate MovesOn(cfg: Config, s: Scheduler, s': Scheduler, g: RunId) {
    && g in s.runs && Requeued(s', g) && s'.runs[g].stepIndex == s.runs[g].stepIndex + 1
    && Advances(cfg.Steps(s.runs[g].scope), s.runs[g].profileStepIndex, s'.runs[g].profileStepIndex)
  }

  /** What an accepted result makes of its run. */
  ghost predicate ResultTaken(cfg: Config, s: Scheduler, s': Scheduler, g: RunId, result: StepResult) {
    && g in s.runs && g in s'.runs && SameRequest(s.runs[g], s'.runs[g])
    && (result.outcome.Continue? || SameSteps(s.runs[g], s'.runs[g]))
    && (result.outcome.Persist? || s'.runs[g].generationAtSubmit.None?)
    && match result.outcome
       case Continue => MovesOn(cfg, s, s', g)
       case Park => s'.runs[g].state.Parked? && !s'.runs[g].executionSealed && s'.runs[g].waiters == s.runs[g].waiters
                    && g !in s'.tasks
       case WaitDeps => s'.runs[g].state.Running? && g in s'.tasks
                        && s'.tasks[g] == (match result.waitRecovery case None => SoftWait case Some(r) => Defer(r))
       case Persist => s'.runs[g].state.Running? && s'.runs[g].generationAtSubmit == s.runs[g].generationAtSubmit
                       && g in s'.tasks && s'.tasks[g] == PersistQueued(result.persistThenContinue)
       case Done => Finished(s', g)
  }

  lemma ContinueMoves(cfg: Config, s: Scheduler, g: RunId)
    requires g in s.runs
    ensures MovesOn(cfg, s, ContinueStep(cfg, s, g), g) && SameRequest(s.runs[g], ContinueStep(cfg, s, g).runs[g])
    ensures ContinueStep(cfg, s, g).runs[g].generationAtSubmit == s.runs[g].generationAtSubmit
  {}

  lemma RetryMoves(s: Scheduler, g: RunId)
    requires g in s.runs
    ensures var s' := RetryAfterEpochBump(s, g);
            && Requeued(s', g) && SameRequest(s.runs[g], s'.runs[g]) && SameSteps(s.runs[g], s'.runs[g])
            && s'.runs[g].generationAtSubmit.None?
  {}

  lemma CompleteMoves(s: Scheduler, g: RunId)
    requires g in s.runs
    ensures var s' := CompleteRun(s, g);
            && Finished(s', g) && SameRequest(s.runs[g], s'.runs[g]) && SameSteps(s.runs[g], s'.runs[g])
            && s'.runs[g].generationAtSubmit == s.runs[g].generationAtSubmit
  {
    hide Released, Without;
  }

  lemma ParkMoves(s: Scheduler, g: RunId)
    requires g in s.runs && s.runs[g].state.Running?
    ensures var run := ParkStep(s, g).runs[g];
            && run.state.Parked? && !run.executionSealed && run.waiters == s.runs[g].waiters
            && run.generationAtSubmit.None? && SameRequest(s.runs[g], run) && SameSteps(s.runs[g], run)
                 && g !in ParkStep(s, g).tasks
  {
    hide Released, Without;
  }

  lemma ResultMoves(cfg: Config, s: Scheduler, g: RunId, result: StepResult)
    requires g in s.runs && s.runs[g].state.Running?
    requires !result.outcome.Persist? ==> s.runs[g].generationAtSubmit.None?
    ensures ResultTaken(cfg, s, ActOn(cfg, s, g, result), g, result)
  {
    hide ContinueStep, CompleteRun, ParkStep, MovesOn, Finished;
    match result.outcome {
      case Continue => ContinueMoves(cfg, s, g);
      case Park => ParkMoves(s, g);
      case WaitDeps =>
      case Persist =>
      case Done => CompleteMoves(s, g);
    }
  }

  lemma StepMoves(cfg: Config, s: Scheduler, g: RunId, result: StepResult)
    requires g in s.runs && s.runs[g].state.Running?
    ensures var s' := AfterStepSuccess(cfg, s, g, result);
            if Current(s, s.runs[g]) then ResultTaken(cfg, s, s', g, result)
            else Requeued(s', g) && SameRequest(s.runs[g], s'.runs[g]) && SameSteps(s.runs[g], s'.runs[g])
  {
    RetryMoves(s, g);
    var s1 := SetRun(s, g, Accepted(s.runs[g], result));
    AcceptedMoves(s.runs[g], result);
    ResultMoves(cfg, s1, g, result);
    AcceptedThenTaken(cfg, s, s1, ActOn(cfg, s1, g, result), g, result);
    hide ActOn, RetryAfterEpochBump, Requeued, Accepted, ResultTaken;
  }

  lemma AcceptedThenTaken(cfg: Config, s: Scheduler, s1: Scheduler, s': Scheduler, g: RunId, result: StepResult)
    requires g in s.runs && g in s1.runs && SameRequest(s.runs[g], s1.runs[g]) && SameSteps(s.runs[g], s1.runs[g])
    requires s1.runs[g].waiters == s.runs[g].waiters
    requires result.outcome.Persist? ==> s1.runs[g].generationAtSubmit == s.runs[g].generationAtSubmit
    requires ResultTaken(cfg, s1, s', g, result)
    ensures ResultTaken(cfg, s, s', g, result)
  {
    hide Requeued, Finished;
  }

  lemma AcceptedMoves(run: NodeRun, result: StepResult)
    ensures var r := Accepted(run, result);
            && SameRequest(run, r) && SameSteps(run, r) && r.state == run.state && r.waiters == run.waiters
            && r.generationAtSubmit == if result.outcome.Persist? then run.generationAtSubmit else None
  {}

  /** What the result of a step does to its run, inline or pool: each outcome has its own effect
      under the current generation, and a discarded result only queues the same step again. */
  lemma StepResultMoves(cfg: Config, s: Scheduler, e: Event, g: RunId)
    requires Possible(s, e) && ReturnedTo(s, e, g).Some? && s.Running(g)
    ensures var s' := Apply(cfg, s, e);
            if AcceptedBy(s, e, g).Some? then ResultTaken(cfg, s, s', g, AcceptedBy(s, e, g).value)
            else Requeued(s', g) && SameRequest(s.runs[g], s'.runs[g]) && SameSteps(s.runs[g], s'.runs[g])
  {
    var result := ReturnedTo(s, e, g).value;
    StepMoves(cfg, s, g, result);
    if e.PoolReports? { StepMoves(cfg, DropTask(s, e.submitter), g, result); }
    hide AfterStepSuccess, ResultTaken, Requeued;
  }

  // --- raises and aborts --------------------------------------------------------------------

  /** Failed with its own error, and the dependents will hear of it. */
  ghost predicate FailedOn(s: Scheduler, s': Scheduler, g: RunId, isAbort: bool) {
    && g in s.runs && g in s'.runs && s'.runs[g].state.Failed? && s'.runs[g].error == Some(Failure(g, isAbort))
    && SameRequest(s.runs[g], s'.runs[g]) && SameSteps(s.runs[g], s'.runs[g])
    && DependencyTerminal(s.runs[g].scope) in s'.callbacks
  }

  /** Whose step the event says has raised, if its run is still running, and with which error. */
  function RaisedBy(s: Scheduler, e: Event): Option<(RunId, bool)> {
    match e
    case BuildRaises(g, isAbort) => if s.Running(g) then Some((g, isAbort)) else None
    case InlineEnds(g, Raised(isAbort)) => if s.Running(g) then Some((g, isAbort)) else None
    case HandOffRaises(g, isAbort) => if s.Running(g) then Some((g, isAbort)) else None
    case PersistRaises(g, isAbort) => if s.Running(g) then Some((g, isAbort)) else None
    case PoolReports(x, _, Raised(isAbort)) =>
      if s.Has(x) && s.Node(x).state.Running? then Some((s.nodes[x], isAbort)) else None
    case _ => None
  }

  lemma FailMoves(s: Scheduler, g: RunId, isAbort: bool)
    requires g in s.runs && !s.runs[g].state.Failed?
    ensures FailedOn(s, Fail(s, g, Failure(g, isAbort)), g, isAbort)
    ensures FailedOn(s, RaiseIn(s, g, Failure(g, isAbort)), g, isAbort)
            && g !in RaiseIn(s, g, Failure(g, isAbort)).tasks
  {
    hide Released, Without;
  }

  /** A step, a hand-off or a persist that raises fails its run, with the error it raised. */
  lemma RaiseFails(cfg: Config, s: Scheduler, e: Event)
    requires Possible(s, e) && RaisedBy(s, e).Some?
    ensures var (g, isAbort) := RaisedBy(s, e).value;
            FailedOn(s, Apply(cfg, s, e), g, isAbort) && g !in Apply(cfg, s, e).tasks
  {
    var (g, isAbort) := RaisedBy(s, e).value;
    FailMoves(s, g, isAbort);
    if e.PoolReports? { ReportFails(cfg, s, e.scope, e.submitter, isAbort); }
    hide RaiseIn, Fail, CompletePoolStep, FailedOn;
  }

  lemma ReportFails(cfg: Config, s: Scheduler, x: ComputeScope, submitter: RunId, isAbort: bool)
    requires s.Has(x) && s.Node(x).state.Running?
    ensures var s', g := CompletePoolStep(cfg, s, x, submitter, Raised(isAbort)), s.nodes[x];
            FailedOn(s, s', g, isAbort) && g !in s'.tasks
  {
    var g := s.nodes[x];
    FailMoves(s, g, isAbort);
    FailMoves(DropTask(s, submitter), g, isAbort);
    hide RaiseIn, Fail;
  }

  /** An abort fails exactly the run that the scope has, if it is going and is the expected one. */
  lemma AbortFailsIff(cfg: Config, s: Scheduler, e: Event)
    requires e.Aborts?
    ensures var s' := Apply(cfg, s, e);
            if e.scope in s.nodes && s.nodes[e.scope] in s.runs && !s.Node(e.scope).IsTerminal()
                && (e.expected.Some? ==> e.expected.value == s.nodes[e.scope])
            then FailedOn(s, s', s.nodes[e.scope], e.isAbort)
            else s' == s
  {
    if s.Has(e.scope) && !s.Node(e.scope).IsTerminal() { FailMoves(s, s.nodes[e.scope], e.isAbort); }
    hide Fail;
  }

  // --- deferrals ----------------------------------------------------------------------------

  /** The run has left its step and waits, with nothing of its own left to do. */
  ghost predicate Waits(s': Scheduler, g: RunId) {
    && g in s'.runs && s'.runs[g].state.WaitingDeps? && s'.runs[g].error.None? && g !in s'.tasks
    && !s'.runs[g].executionSealed && s'.runs[g].generationAtSubmit.None?
  }

  /** The new edges: the dependency is grafted unless it is there or is the run itself. */
  predicate Grafted(x: ComputeScope, before: seq<ComputeScope>, dep: ComputeScope, after: seq<ComputeScope>) {
    if dep == x || dep in before then after == before else after == before + [dep]
  }

  ghost predicate DeferredOnto(s: Scheduler, s': Scheduler, g: RunId, recovery: Recovery) {
    && g in s.runs && Waits(s', g) && SameSteps(s.runs[g], s'.runs[g])
    && s'.runs[g].awaitsExternalWake == !recovery.forceFresh
    && s'.runs[g].priorityBand == s.runs[g].priorityBand && s'.runs[g].bundle == s.runs[g].bundle
    && Grafted(s.runs[g].scope, s.runs[g].dependencyScopes, recovery.dependencyScope, s'.runs[g].dependencyScopes)
    && s'.callbacks == s.callbacks + if !recovery.forceFresh then multiset{} else
                       multiset{ForceFresh(recovery.dependencyScope, s.runs[g].priorityBand, recovery.stepKind,
                           s.runs[g].bundle)}
  }

  lemma RecoverMoves(s: Scheduler, g: RunId, recovery: Recovery)
    requires g in s.runs && s.runs[g].state.Running?
    ensures DeferredOnto(s, RecoverOnDependency(s, g, recovery), g, recovery)
  {
    hide Without;
  }

  /** A deferral onto a dependency leaves its run waiting, grafts the dependency, and demands it
      afresh exactly when it was asked to, in the run's band and with the run's bundle; a soft
      deferral only leaves the run waiting. */
  lemma DeferralWaits(cfg: Config, s: Scheduler, e: Event)
    requires Possible(s, e) && (e.SoftWaits? || e.Defers? || e.PersistDefers?) && s.Running(e.g)
    ensures var s' := Apply(cfg, s, e);
            match e
            case SoftWaits(g) => Waits(s', g) && SameRequest(s.runs[g], s'.runs[g]) && SameSteps(s.runs[g], s'.runs[g])
                                 && s'.callbacks == s.callbacks && s'.runs[g].awaitsExternalWake
            case Defers(g) => DeferredOnto(s, s', g, s.tasks[g].recovery)
            case PersistDefers(g, recovery) => DeferredOnto(s, s', g, recovery)
            case _ => true
  {
    if e.Defers? { RecoverMoves(s, e.g, s.tasks[e.g].recovery); }
    if e.PersistDefers? { RecoverMoves(s, e.g, e.recovery); }
    hide RecoverOnDependency, DeferredOnto, Without;
  }

  // --- persisting and sealing ---------------------------------------------------------------

  /** A persist that returns, still current, goes on with the run's next step exactly if it was
      to; otherwise the run is complete.  A stale one queues the step again. */
  lemma PersistEnds(cfg: Config, s: Scheduler, e: Event)
    requires Possible(s, e) && e.PersistFinishes? && s.Running(e.g)
    ensures var s' := Apply(cfg, s, e);
            && SameRequest(s.runs[e.g], s'.runs[e.g])
            && if !Current(s, s.runs[e.g]) then Requeued(s', e.g) && SameSteps(s.runs[e.g], s'.runs[e.g])
               else if s.tasks[e.g].thenContinue then MovesOn(cfg, s, s', e.g)
               else Finished(s', e.g) && SameSteps(s.runs[e.g], s'.runs[e.g])
  {
    RetryMoves(s, e.g);
    ContinueMoves(cfg, s, e.g);
    CompleteMoves(s, e.g);
    hide RetryAfterEpochBump, ContinueStep, CompleteRun, MovesOn, Finished, Requeued;
  }

  /** A queued persist is called exactly if its run is running and current, for the same continuation. */
  lemma PersistIsCalled(cfg: Config, s: Scheduler, e: Event)
    requires Possible(s, e) && e.PersistChecks?
    ensures var s', g := Apply(cfg, s, e), e.g;
            && s'.durable == s.durable
            && if !s.Running(g) then s'.runs == s.runs && g !in s'.tasks
               else if !Current(s, s.runs[g]) then Requeued(s', g) && SameSteps(s.runs[g], s'.runs[g])
               else s'.runs == s.runs && s'.tasks == s.tasks[g := PersistCalling(s.tasks[g].thenContinue)]
  {
    RetryMoves(s, e.g);
    assert RetryAfterEpochBump(s, e.g).durable == s.durable;
    hide RetryAfterEpochBump, Requeued;
  }

  /** A call that writes makes an artifact durable, that of the run's scope. */
  lemma PersistMakesDurable(cfg: Config, s: Scheduler, e: Event)
    requires Possible(s, e) && e.PersistWrites?
    ensures var s', g := Apply(cfg, s, e), e.g;
            && s'.durable == s.durable + {s.runs[g].scope} && s'.runs == s.runs
            && s'.tasks == s.tasks[g := PersistReturned(s.tasks[g].thenContinue)]
  {}

  /** A step is sealed exactly if its run is still running; what is left of an aborted one goes. */
  lemma SealSeals(cfg: Config, s: Scheduler, e: Event)
    requires Possible(s, e) && (e.SealsInline? || e.SealsPool?)
    ensures var s', g := Apply(cfg, s, e), e.g;
            if s.Running(g) then
              && s'.runs == s.runs[g := s.runs[g].(executionSealed := true)]
              && s'.tasks == s.tasks[g := if e.SealsInline? then InlineRun else PoolWork]
            else s'.runs == s.runs && s'.tasks == s.tasks - {g}
  {}

  /** A wipe takes the artifacts of its scopes, moves on their generations and no others. */
  lemma WipeWipes(cfg: Config, s: Scheduler, e: Event, x: ComputeScope)
    requires e.Wipes?
    ensures var s' := Apply(cfg, s, e);
            && s'.runs == s.runs && s'.nodes == s.nodes && s'.durable == s.durable - e.scopes
            && (if x in e.scopes then s'.Epoch(x) > s.Epoch(x) else s'.Epoch(x) == s.Epoch(x))
  {}

  // --- attaching ----------------------------------------------------------------------------

  /** The request the event submits, if it submits one. */
  function Submitted(e: Event): Option<Request> {
    match e
    case Submits(req, _, _) => Some(req)
    case Ensures(req, _, _) => Some(req)
    case WakesParked(req, _, _) => Some(req)
    case RunsCallback(ForceFresh(x, band, kind, bundle), _, _) => Some(Request(x, kind, band, true, bundle))
    case _ => None
  }

  /** What waking and re-examining a run before attaching to it leave of its record. */
  lemma FreshAttachLeaves(s: Scheduler, g: RunId)
    requires g in s.runs
    ensures var before, after := s.runs[g], ForceFreshAttach(s, g).runs[g];
            && SameRequest(before, after) && SameSteps(before, after)
            && after.executionSealed == (before.executionSealed && !before.state.Parked?)
            && (after.IsTerminal() ==> before.IsTerminal() || after.state.Failed?)
            && ForceFreshAttach(s, g).nodes == s.nodes
  {
    var s1 := WakeParked(s, g);
    WakeLeaves(s, g);
    RefreshLeaves(s1, g);
    hide WakeParked, Refresh, AbortedBelow;
  }

  /** A parked run that is woken is ready exactly if its dependencies are complete, and waits
      otherwise; any other run is left alone. */
  lemma WakeLeaves(s: Scheduler, g: RunId)
    requires g in s.runs
    ensures var before, after := s.runs[g], WakeParked(s, g).runs[g];
            && SameRequest(before, after) && SameSteps(before, after) && WakeParked(s, g).nodes == s.nodes
            && (if before.state.Parked? then
                  && after.state == (if s.DepsComplete(before) then Ready else WaitingDeps)
                  && !after.executionSealed && after.generationAtSubmit.None?
                else WakeParked(s, g) == s)
  {
    var woken := SetRun(s, g, s.runs[g].(generationAtSubmit := None, executionSealed := false));
    PromoteLeaves(woken, g);
    DemoteLeaves(woken, g);
    assert Promote(woken, g).runs[g].generationAtSubmit.None? && Demote(woken, g).runs[g].generationAtSubmit.None?;
    hide Promote, Demote;
  }

  ghost predicate Leaves(s: Scheduler, s': Scheduler, g: RunId) {
    && g in s.runs && g in s'.runs && s'.nodes == s.nodes
    && SameRequest(s.runs[g], s'.runs[g]) && SameSteps(s.runs[g], s'.runs[g])
    && s'.runs[g].executionSealed == s.runs[g].executionSealed
    && (s'.runs[g].IsTerminal() ==> s.runs[g].IsTerminal() || s'.runs[g].state.Failed?)
  }

  lemma RefreshLeaves(s: Scheduler, g: RunId)
    requires g in s.runs
    ensures Leaves(s, Refresh(s, g), g)
  {
    var failed := FailedDependencyError(s, s.runs[g].dependencyScopes);
    if failed.Some? { FailLeaves(s, g, failed.value); }
    PromoteLeaves(s, g);
    DemoteLeaves(s, g);
    assert Leaves(s, s, g);
    hide Fail, Promote, Demote, Leaves;
  }

  lemma FailLeaves(s: Scheduler, g: RunId, error: Failure)
    requires g in s.runs
    ensures Leaves(s, Fail(s, g, error), g)
  {
    hide Released, Without;
  }

  lemma PromoteLeaves(s: Scheduler, g: RunId)
    requires g in s.runs
    ensures Leaves(s, Promote(s, g), g) && Promote(s, g).runs[g].state.Ready?
  {}

  lemma DemoteLeaves(s: Scheduler, g: RunId)
    requires g in s.runs
    ensures Leaves(s, Demote(s, g), g) && Demote(s, g).runs[g].state.WaitingDeps?
  {
    hide Without;
  }

  /** What attaching leaves of a run: its plan and its place, and a band adopted by name of the
      bands, unless it is executing or attaching found that it has to fail. */
  predicate AttachedRun(req: Request, before: NodeRun, after: NodeRun) {
    && after.dependencyScopes == before.dependencyScopes && SameSteps(before, after) && after.bundle == before.bundle
    && (if before.executionSealed && !(req.forceFresh && before.state.Parked?)
         then after.priorityBand == before.priorityBand
        else
          || Adopts(before.priorityBand, req.band, after.priorityBand)
          || (req.forceFresh && after.state.Failed? && after.priorityBand == before.priorityBand))
  }

  /** A submission that finds a run going attaches to it. */
  lemma SubmissionAttaches(cfg: Config, s: Scheduler, e: Event)
    requires Possible(s, e) && Submitted(e).Some? && s.Has(Submitted(e).value.scope)
    requires !s.Node(Submitted(e).value.scope).IsTerminal()
    requires e.WakesParked? ==> s.Node(e.req.scope).state.Parked?
    ensures var req := Submitted(e).value;
            var s', g := Apply(cfg, s, e), s.nodes[req.scope];
            s'.nodes == s.nodes && g in s'.runs && AttachedRun(req, s.runs[g], s'.runs[g])
  {
    var req := Submitted(e).value;
    var g := s.nodes[req.scope];
    var t := PassStart(cfg, s, e).value;
    hide ForceFreshAttach, Attach, Dispatch, Apply, PassStart, EdgesStay, AttachedRun;
    AttachLeaves(s, g, req);
    AttachingPass(cfg, s, e);
    PassEnds(cfg, s, e);
    DispatchKeepsEdges(cfg, t, OracleOf(e), 0);
    EdgeStays(t, Apply(cfg, s, e), g);
    AttachedStays(req, s.runs[g], t.runs[g], Apply(cfg, s, e).runs[g]);
  }

  lemma AttachLeaves(s: Scheduler, g: RunId, req: Request)
    requires g in s.runs && !s.runs[g].IsTerminal()
    ensures var t := Attach(if req.forceFresh then ForceFreshAttach(s, g) else s, g, req.band);
            t.nodes == s.nodes && g in t.runs && AttachedRun(req, s.runs[g], t.runs[g])
  {
    var s1 := if req.forceFresh then ForceFreshAttach(s, g) else s;
    FreshAttachLeaves(s, g);
    AttachAdoptsTheBetterBand(s1, g, req.band);
    AttachShape(s1, g, req.band);
    hide ForceFreshAttach, Attach, Adopts;
  }

  lemma AttachedStays(req: Request, before: NodeRun, run: NodeRun, after: NodeRun)
    requires AttachedRun(req, before, run) && SamePlan(run, after) && (run.IsTerminal() ==> after == run)
    ensures AttachedRun(req, before, after)
  {}

  lemma AttachingPass(cfg: Config, s: Scheduler, e: Event)
    requires Possible(s, e) && Submitted(e).Some? && s.Has(Submitted(e).value.scope)
    requires !s.Node(Submitted(e).value.scope).IsTerminal()
    requires e.WakesParked? ==> s.Node(e.req.scope).state.Parked?
    ensures PassStart(cfg, s, e).Some?
    ensures var req := Submitted(e).value;
            var g := s.nodes[req.scope];
            var t := Attach(if req.forceFresh then ForceFreshAttach(s, g) else s, g, req.band);
            PassStart(cfg, s, e).value.runs == t.runs && PassStart(cfg, s, e).value.nodes == t.nodes
  {
    hide ForceFreshAttach, Attach, PlanSubmission, Replace;
  }

  lemma EdgeStays(s: Scheduler, s': Scheduler, g: RunId)
    requires EdgesStay(s, s') && g in s.runs
    ensures s'.nodes == s.nodes && SameEdges(s, s', g)
  {}

  /** A submission that finds a terminal run it is not to replace, and a wake of a scope that is
      not parked, register nothing: the one only dispatches, the other changes nothing. */
  lemma SubmissionIgnored(cfg: Config, s: Scheduler, e: Event)
    requires Possible(s, e) && (e.Submits? || e.WakesParked?)
    ensures e.Submits? && !e.req.forceFresh && s.Has(e.req.scope) && s.Node(e.req.scope).IsTerminal() ==>
              Apply(cfg, s, e) == Dispatch(cfg, s, e.oracle, 0)
    ensures e.WakesParked? && !(s.Has(e.req.scope) && s.Node(e.req.scope).state.Parked?) ==> Apply(cfg, s, e) == s
  {
    hide Dispatch, PlanSubmission, ForceFreshAttach;
  }

  /** Restarting demands each intentionally aborted scope below the waiting node once: at the
      band of the node, from its first step, with its own bundle or else the node's. */
  lemma RestartsDemanded(s: Scheduler, g: RunId, cb: Callback)
    requires g in s.runs
    ensures ScheduleRestarts(s, g).callbacks[cb] == s.callbacks[cb] +
            if && cb.ForceFresh? && cb.scope in s.nodes && s.Has(cb.scope) && s.Node(cb.scope).state.Failed?
               && s.Node(cb.scope).error.Some? && s.Node(cb.scope).error.value.isAbort
               && cb.band == s.runs[g].priorityBand && cb.stepKind.None? && cb.bundle.Some?
               && cb.bundle == (if s.Node(cb.scope).bundle.Some? then s.Node(cb.scope).bundle else s.runs[g].bundle)
               && (exists via :: WaitingReach(s, s.runs[g].scope, via) && DependsOn(s, via, cb.scope))
            then 1 else 0
  {
    var demands := set d | d in AbortedBelow(s, g) && s.Has(d) :: RestartRequest(s, g, d);
    assert multiset(demands)[cb] == if cb in demands then 1 else 0;
    hide WaitingReach;
    if cb.ForceFresh? && cb.scope in AbortedBelow(s, g) && cb == RestartRequest(s, g, cb.scope) {
      assert cb in demands;
    }
  }

  lemma RefreshWaits(s: Scheduler, g: RunId, d: ComputeScope)
    requires g in s.runs && (s.runs[g].state.WaitingDeps? || s.runs[g].state.Ready?)
    requires d in s.runs[g].dependencyScopes && !s.CompleteAt(d)
    requires forall x :: x in s.runs[g].dependencyScopes ==> !s.HardFailedAt(x)
    ensures var s' := Refresh(s, g);
            && s'.runs == s.runs[g := s'.runs[g]] && s'.nodes == s.nodes && s'.callbacks == s.callbacks
            && s'.runs[g].state.WaitingDeps? && SameRequest(s.runs[g], s'.runs[g])
  {
    hide Without;
  }

  lemma WakeWaits(s: Scheduler, g: RunId, d: ComputeScope)
    requires g in s.runs && d in s.runs[g].dependencyScopes && !s.CompleteAt(d)
    ensures var s' := WakeParked(s, g);
            && s'.runs == s.runs[g := s'.runs[g]] && s'.nodes == s.nodes && s'.callbacks == s.callbacks
            && SameRequest(s.runs[g], s'.runs[g])
            && s'.runs[g].state == if s.runs[g].state.Parked? then WaitingDeps else s.runs[g].state
  {
    hide Without;
  }

  /** Once a node waits, the waiting nodes below it are reached as before. */
  lemma ReachStays(s: Scheduler, s': Scheduler, g: RunId, from: ComputeScope, to: ComputeScope)
    requires g in s.runs && g in s'.runs && s'.nodes == s.nodes && s'.runs == s.runs[g := s'.runs[g]]
    requires s'.runs[g].state.WaitingDeps? && s'.runs[g].dependencyScopes == s.runs[g].dependencyScopes
    requires WaitingReach(s, from, to)
    ensures WaitingReach(s', from, to)
  {
    var path :| WaitingPath(s, path) && path[0] == from && path[|path| - 1] == to;
    assert WaitingPath(s', path);
  }

  /** A force-fresh submission that finds a node waiting, ready or parked over an incomplete
      dependency demands every intentionally aborted scope below it again. */
  lemma FreshAttachRestarts(cfg: Config, s: Scheduler, req: Request, plan: Plan, incomplete: ComputeScope,
          via: ComputeScope, d: ComputeScope)
    requires s.Has(req.scope) && req.forceFresh && s.Node(req.scope).scope == req.scope
    requires var run := s.Node(req.scope);
             && (run.state.WaitingDeps? || run.state.Ready? || run.state.Parked?)
             && incomplete in run.dependencyScopes && !s.CompleteAt(incomplete)
             && (forall x :: x in run.dependencyScopes ==> !s.HardFailedAt(x))
    requires WaitingReach(s, req.scope, via) && DependsOn(s, via, d) && s.AbortFailedAt(d)
    requires s.Node(d).bundle.Some?
    ensures ForceFresh(d, s.Node(req.scope).priorityBand, None, s.Node(d).bundle)
            in SubmitPrepare(cfg, s, req, plan).callbacks
  {
    var g := s.nodes[req.scope];
    var s2 := Refresh(WakeParked(s, g), g);
    AttachWaits(s, g, incomplete);
    hide WakeParked, Refresh, WaitingReach, ScheduleRestarts, SubmitPrepare, ForceFreshAttach;
    RestartIsDemanded(s, s2, g, req.scope, via, d);
    AttachesFresh(cfg, s, req, plan);
  }

  lemma AttachesFresh(cfg: Config, s: Scheduler, req: Request, plan: Plan)
    requires s.Has(req.scope) && req.forceFresh && !s.Node(req.scope).IsTerminal()
    ensures SubmitPrepare(cfg, s, req, plan).callbacks == ForceFreshAttach(s, s.nodes[req.scope]).callbacks
  {
    AttachShape(ForceFreshAttach(s, s.nodes[req.scope]), s.nodes[req.scope], req.band);
    hide ForceFreshAttach, Attach, PlanSubmission;
  }

  lemma RestartIsDemanded(s: Scheduler, s': Scheduler, g: RunId, x: ComputeScope, via: ComputeScope, d: ComputeScope)
    requires s.Has(x) && s.nodes[x] == g && s.runs[g].scope == x && g in s'.runs
    requires s'.nodes == s.nodes && s'.runs == s.runs[g := s'.runs[g]]
    requires s'.runs[g].state.WaitingDeps? && SameRequest(s.runs[g], s'.runs[g])
    requires WaitingReach(s, x, via) && DependsOn(s, via, d) && s.AbortFailedAt(d) && s.Node(d).bundle.Some?
    requires s.runs[g].state.WaitingDeps? || s.runs[g].state.Ready? || s.runs[g].state.Parked?
    ensures ForceFresh(d, s.runs[g].priorityBand, None, s.Node(d).bundle) in ScheduleRestarts(s', g).callbacks
  {
    ReachStays(s, s', g, x, via);
    hide WaitingReach;
    assert s.nodes[d] != g;
    RestartsDemanded(s', g, ForceFresh(d, s.runs[g].priorityBand, None, s.Node(d).bundle));
    hide ScheduleRestarts;
  }

  lemma AttachWaits(s: Scheduler, g: RunId, d: ComputeScope)
    requires g in s.runs && (s.runs[g].state.WaitingDeps? || s.runs[g].state.Ready? || s.runs[g].state.Parked?)
    requires d in s.runs[g].dependencyScopes && !s.CompleteAt(d)
    requires forall x :: x in s.runs[g].dependencyScopes ==> !s.HardFailedAt(x)
    ensures var s' := Refresh(WakeParked(s, g), g);
            && s'.runs == s.runs[g := s'.runs[g]] && s'.nodes == s.nodes && s'.callbacks == s.callbacks
            && s'.runs[g].state.WaitingDeps? && SameRequest(s.runs[g], s'.runs[g])
            && ForceFreshAttach(s, g) == ScheduleRestarts(s', g)
  {
    var s1 := WakeParked(s, g);
    WakeWaits(s, g, d);
    hide WakeParked, AbortedBelow;
    assert !s1.CompleteAt(d) && forall x :: s1.HardFailedAt(x) ==> s.HardFailedAt(x);
    RefreshWaits(s1, g, d);
  }

  // --- re-examining a node ------------------------------------------------------------------

  predicate FirstHardFailed(s: Scheduler, deps: seq<ComputeScope>, k: nat)
    requires k < |deps|
  {
    s.HardFailedAt(deps[k]) && forall j :: 0 <= j < k ==> !s.HardFailedAt(deps[j])
  }

  lemma {:induction false} FirstFailedDependency(s: Scheduler, deps: seq<ComputeScope>, k: nat)
    requires k < |deps| && FirstHardFailed(s, deps, k)
    ensures FailedDependencyError(s, deps) == s.Node(deps[k]).error
    decreases k
  {
    if k > 0 {
      assert !s.HardFailedAt(deps[0]);
      FirstFailedDependency(s, deps[1..], k - 1);
    }
  }

  /** A waiting or ready node that is re-examined fails with the error of its first dependency
      that failed other than by an abort; if there is none it is ready exactly when all its
      dependencies are complete, and waits otherwise. */
  lemma RefreshDecides(s: Scheduler, g: RunId)
    requires g in s.runs && (s.runs[g].state.WaitingDeps? || s.runs[g].state.Ready?)
    ensures var deps, after := s.runs[g].dependencyScopes, Refresh(s, g).runs[g];
            && (forall k: nat {:trigger deps[k]} :: k < |deps| && FirstHardFailed(s, deps, k) ==>
                  after.state.Failed? && after.error == s.Node(deps[k]).error)
            && ((forall d :: d in deps ==> !s.HardFailedAt(d)) ==>
                  after.state == if forall d :: d in deps ==> s.CompleteAt(d) then Ready else WaitingDeps)
  {
    var deps := s.runs[g].dependencyScopes;
    forall k: nat | k < |deps| && FirstHardFailed(s, deps, k)
      ensures FailedDependencyError(s, deps) == s.Node(deps[k]).error
    {
      FirstFailedDependency(s, deps, k);
    }
    var failed := FailedDependencyError(s, deps);
    if failed.Some? { FailedWith(s, g, failed.value); }
    PromoteLeaves(s, g);
    DemoteLeaves(s, g);
    hide Fail, Promote, Demote;
  }

  lemma FailedWith(s: Scheduler, g: RunId, error: Failure)
    requires g in s.runs && !s.runs[g].state.Failed?
    ensures Fail(s, g, error).runs[g].state.Failed? && Fail(s, g, error).runs[g].error == Some(error)
  {
    hide Released, Without;
  }
}
