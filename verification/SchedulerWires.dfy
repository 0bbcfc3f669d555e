/**
What a run's result wire is: the payload of the last accepted step that brought one, the empty
wire where a step had to leave one, or what a short-circuit hydrated.
*/
module SchedulerWires {
  import opened Prelude
  import opened Scheduler
  import opened SchedulerInvariants
  import opened SchedulerPasses
  import opened SchedulerEvents
  import opened SchedulerTheorems
  import opened SchedulerFaults
  import opened SchedulerPlans

  // --- one step -----------------------------------------------------------------------------

  /** Nothing invalidated the run's scope since its step captured the generation. */
  predicate Current(s: Scheduler, run: NodeRun) {
    run.generationAtSubmit.Some? ==>
      run.generationAtSubmit.value == if run.scope in s.epochs then s.epochs[run.scope] else 0
  }

  /** The step result the event hands to the run, if it hands one. */
  function ReturnedTo(s: Scheduler, e: Event, g: RunId): Option<StepResult> {
    match e
    case InlineEnds(h, Returned(result)) => if h == g && g in s.runs then Some(result) else None
    case PoolReports(x, _, Returned(result)) =>
      if s.Has(x) && s.nodes[x] == g && s.runs[g].state.Running? then Some(result) else None
    case _ => None
  }

  /** The result that the event hands to the run under the current generation. */
  function AcceptedBy(s: Scheduler, e: Event, g: RunId): Option<StepResult> {
    var r := ReturnedTo(s, e, g);
    if r.Some? && g in s.runs && Current(s, s.runs[g]) then r else None
  }

  /** The wire an accepted step leaves: its payload; without one the wire there was; and where
      there was none, the empty wire if the step persists or is done, else none. */
  predicate LeavesWire(before: Option<Wire>, result: StepResult, after: Option<Wire>) {
    && (result.payload.Some? ==> after == result.payload)
    && (result.payload.None? && before.Some? ==> after == before)
    && (result.payload.None? && before.None? ==>
         if result.outcome.Persist? || result.outcome.Done? then after == Some(EmptyWire) else after == None)
  }

  /** Only the given run's record may differ, and not in its wire. */
  ghost predicate OnlyRecord(s: Scheduler, s': Scheduler, g: RunId) {
    && g in s.runs && g in s'.runs && s'.runs == s.runs[g := s'.runs[g]]
    && s'.runs[g].resultWire == s.runs[g].resultWire && s'.runs[g].scope == s.runs[g].scope
  }

  /** Nor is it made to wait for an external wake. */
  ghost predicate OnlyMoves(s: Scheduler, s': Scheduler, g: RunId) {
    OnlyRecord(s, s', g) && (s'.runs[g].awaitsExternalWake ==> s.runs[g].awaitsExternalWake)
  }

  lemma SettlingOnlyMoves(s: Scheduler, g: RunId, state: NodeState, error: Option<Failure>)
    requires g in s.runs
    ensures OnlyMoves(s, Settle(s, g, state, error), g) && OnlyMoves(s, Settle(DropTask(s, g), g, state, error), g)
    ensures OnlyMoves(s, DropTask(s, g), g)
  {
    hide Released;
  }

  lemma ParkingOnlyMoves(s: Scheduler, g: RunId)
    requires g in s.runs
    ensures OnlyMoves(s, ParkStep(s, g), g)
  {
    var s1 := DropTask(SetRun(s, g, s.runs[g].(generationAtSubmit := None, executionSealed := false)), g);
    SettlingOnlyMoves(s1, g, Parked, None);
    assert s1.runs[g].resultWire == s.runs[g].resultWire;
    hide Settle;
  }

  lemma RetryingOnlyMoves(s: Scheduler, g: RunId)
    requires g in s.runs
    ensures OnlyMoves(s, RetryAfterEpochBump(s, g), g)
  {}

  lemma ContinuingOnlyMoves(cfg: Config, s: Scheduler, g: RunId)
    requires g in s.runs
    ensures OnlyMoves(s, ContinueStep(cfg, s, g), g)
  {}

  lemma TaskingOnlyMoves(s: Scheduler, g: RunId, task: Task)
    requires g in s.runs
    ensures OnlyMoves(s, SetTask(s, g, task), g)
  {}

  lemma ActingOnlyMoves(cfg: Config, s: Scheduler, g: RunId, result: StepResult)
    requires g in s.runs
    ensures OnlyMoves(s, ActOn(cfg, s, g, result), g)
  {
    hide Settle, ParkStep, ContinueStep, OnlyMoves, DropTask, SetTask;
    match result.outcome {
      case Continue => ContinuingOnlyMoves(cfg, s, g);
      case Park => ParkingOnlyMoves(s, g);
      case WaitDeps =>
        TaskingOnlyMoves(s, g, if result.waitRecovery.None? then SoftWait else Defer(result.waitRecovery.value));
      case Persist => TaskingOnlyMoves(s, g, PersistQueued(result.persistThenContinue));
      case Done => SettlingOnlyMoves(s, g, Complete, None);
    }
  }

  lemma AcceptedWire(run: NodeRun, result: StepResult)
    ensures LeavesWire(run.resultWire, result, Accepted(run, result).resultWire)
    ensures Accepted(run, result).scope == run.scope
            && Accepted(run, result).awaitsExternalWake == run.awaitsExternalWake
  {}

  lemma StepLeavesWire(cfg: Config, s: Scheduler, g: RunId, result: StepResult)
    requires g in s.runs
    ensures var s' := AfterStepSuccess(cfg, s, g, result);
            && g in s'.runs && s'.runs == s.runs[g := s'.runs[g]] && s'.runs[g].scope == s.runs[g].scope
            && (s'.runs[g].awaitsExternalWake ==> s.runs[g].awaitsExternalWake)
            && if Current(s, s.runs[g]) then LeavesWire(s.runs[g].resultWire, result, s'.runs[g].resultWire)
               else s'.runs[g].resultWire == s.runs[g].resultWire
  {
    RetryingOnlyMoves(s, g);
    AcceptingLeavesWire(cfg, s, g, result);
    hide ActOn, RetryAfterEpochBump, Accepted, LeavesWire;
  }

  lemma AcceptingLeavesWire(cfg: Config, s: Scheduler, g: RunId, result: StepResult)
    requires g in s.runs
    ensures var s' := ActOn(cfg, SetRun(s, g, Accepted(s.runs[g], result)), g, result);
            && g in s'.runs && s'.runs == s.runs[g := s'.runs[g]] && s'.runs[g].scope == s.runs[g].scope
            && (s'.runs[g].awaitsExternalWake ==> s.runs[g].awaitsExternalWake)
            && LeavesWire(s.runs[g].resultWire, result, s'.runs[g].resultWire)
  {
    AcceptedWire(s.runs[g], result);
    ActingOnlyMoves(cfg, SetRun(s, g, Accepted(s.runs[g], result)), g, result);
    hide ActOn, Accepted, LeavesWire;
  }

  /** The wire a step leaves on its own run, whatever event brings its result. */
  lemma AcceptedStepLeavesWire(cfg: Config, s: Scheduler, e: Event, g: RunId)
    requires Possible(s, e) && ReturnedTo(s, e, g).Some?
    ensures g in Apply(cfg, s, e).runs && Apply(cfg, s, e).runs[g].scope == s.runs[g].scope
    ensures Apply(cfg, s, e).runs[g].awaitsExternalWake ==> s.runs[g].awaitsExternalWake
    ensures if AcceptedBy(s, e, g).Some?
              then LeavesWire(s.runs[g].resultWire, AcceptedBy(s, e, g).value, Apply(cfg, s, e).runs[g].resultWire)
            else Apply(cfg, s, e).runs[g].resultWire == s.runs[g].resultWire
  {
    var result := ReturnedTo(s, e, g).value;
    StepLeavesWire(cfg, s, g, result);
    if e.PoolReports? { StepLeavesWire(cfg, DropTask(s, e.submitter), g, result); }
    hide AfterStepSuccess, LeavesWire;
  }

  // --- everything else ----------------------------------------------------------------------

  ghost predicate SameWire(s: Scheduler, s': Scheduler, g: RunId)
    requires g in s.runs
  {
    && g in s'.runs && s'.runs[g].resultWire == s.runs[g].resultWire && s'.runs[g].scope == s.runs[g].scope
    && (s'.runs[g].state.Complete? <==> s.runs[g].state.Complete?)
    && (s'.runs[g].awaitsExternalWake ==> s.runs[g].awaitsExternalWake)
  }

  /** Nobody's wire changes, nobody completes or begins to wait for an external wake, and new
      runs have no wire and do not wait for one. */
  ghost predicate WiresStay(s: Scheduler, s': Scheduler) {
    && (forall g {:trigger SameWire(s, s', g)} :: g in s.runs ==> SameWire(s, s', g))
    && (forall g :: g in s'.runs && g !in s.runs ==> s'.runs[g].resultWire.None? && !s'.runs[g].awaitsExternalWake)
  }

  lemma WiresStayTransitive(s: Scheduler, s1: Scheduler, s2: Scheduler)
    requires WiresStay(s, s1) && WiresStay(s1, s2)
    ensures WiresStay(s, s2)
  {
    forall g | g in s.runs ensures SameWire(s, s2, g) { assert SameWire(s, s1, g) && SameWire(s1, s2, g); }
    forall g | g in s2.runs && g !in s.runs ensures s2.runs[g].resultWire.None? && !s2.runs[g].awaitsExternalWake {
      assert g in s1.runs ==> SameWire(s1, s2, g);
    }
  }

  lemma {:induction false} PickKeepsWires(s: Scheduler, admit: (ComputeScope, nat) -> bool, round: nat, budget: nat)
    ensures WiresStay(s, Pick(s, admit, round, budget).0)
    decreases budget
  {
    if budget != 0 && s.readyQueue != [] {
      var x := s.readyQueue[0];
      var tail := TakeHead(s);
      var next := if !s.IsReady(x) then tail else if !s.DepsComplete(s.Node(x)) then DemoteHead(s) else RotateHead(s);
      assert WiresStay(s, next) && WiresStay(s, tail);
      if s.IsReady(x) { PickStep(s, admit, round, budget); }
      assert !s.IsReady(x) ==> Pick(s, admit, round, budget) == Pick(tail, admit, round, budget - 1);
      hide Pick, WiresStay, DemoteHead, RotateHead, TakeHead;
      if !s.IsReady(x) || !s.DepsComplete(s.Node(x)) || !admit(x, round) {
        PickKeepsWires(next, admit, round, budget - 1);
        WiresStayTransitive(s, next, Pick(next, admit, round, budget - 1).0);
      }
    }
  }

  /** The run was completed without running: a probe reported its scope satisfied, and it keeps
      its wire, or gets the hydrated one, or the empty one when nothing could be hydrated. */
  ghost predicate CutShort(o: DispatchOracle, x: ComputeScope, before: Option<Wire>, after: Option<Wire>) {
    exists n {:trigger o.satisfied(x, n)} :: o.satisfied(x, n)
      && after == if before.Some? then before else if o.hydrated(x, n).Some? then o.hydrated(x, n) else Some(EmptyWire)
  }

  /** In a pass a run keeps its wire, unless the pass completes it. */
  ghost predicate PassedWire(o: DispatchOracle, s: Scheduler, s': Scheduler, g: RunId)
    requires g in s.runs
  {
    && g in s'.runs && s'.runs[g].scope == s.runs[g].scope && (s.runs[g].state.Complete? ==> s'.runs[g].state.Complete?)
    && (s'.runs[g].awaitsExternalWake ==> s.runs[g].awaitsExternalWake)
    && if s'.runs[g].state.Complete? && !s.runs[g].state.Complete?
          then CutShort(o, s.runs[g].scope, s.runs[g].resultWire, s'.runs[g].resultWire)
       else s'.runs[g].resultWire == s.runs[g].resultWire
  }

  ghost predicate PassedWires(o: DispatchOracle, s: Scheduler, s': Scheduler) {
    s'.runs.Keys == s.runs.Keys && forall g {:trigger PassedWire(o, s, s', g)} :: g in s.runs ==>
        PassedWire(o, s, s', g)
  }

  lemma NothingPasses(o: DispatchOracle, s: Scheduler, s': Scheduler)
    requires WiresStay(s, s') && s'.runs.Keys == s.runs.Keys
    ensures PassedWires(o, s, s')
  {
    forall g | g in s.runs ensures PassedWire(o, s, s', g) { assert SameWire(s, s', g); }
  }

  lemma PassedTransitive(o: DispatchOracle, s: Scheduler, s1: Scheduler, s2: Scheduler)
    requires PassedWires(o, s, s1) && PassedWires(o, s1, s2)
    ensures PassedWires(o, s, s2)
  {
    forall g | g in s.runs
        ensures PassedWire(o, s, s2, g) { assert PassedWire(o, s, s1, g) && PassedWire(o, s1, s2, g); }
  }

  lemma BeginPasses(o: DispatchOracle, s: Scheduler, x: ComputeScope, task: Task)
    requires s.IsReady(x)
    ensures var s' := Begin(s, s.nodes[x], task);
            PassedWires(o, s, s') && PassedWires(o, s, s'.(faulted := true)) && s'.nodes == s.nodes
    ensures PassedWires(o, s, s.(faulted := true)) && PassedWires(o, s, Enqueue(s, x))
  {
    hide CutShort;
    var s' := Begin(s, s.nodes[x], task);
    forall g | g in s.runs ensures PassedWire(o, s, s', g) {}
    forall g | g in s.runs ensures PassedWire(o, s, s'.(faulted := true), g) {}
    assert forall g :: g in s.runs ==> SameWire(s, s.(faulted := true), g);
    NothingPasses(o, s, s.(faulted := true));
    assert forall g :: g in s.runs ==> SameWire(s, Enqueue(s, x), g);
    NothingPasses(o, s, Enqueue(s, x));
  }

  lemma ShortCircuitPasses(o: DispatchOracle, s: Scheduler, x: ComputeScope, round: nat)
    requires s.IsReady(x) && s.Node(x).scope == x && o.satisfied(x, round)
    ensures var s' := ShortCircuit(s, s.nodes[x], o.hydrated(x, round)); PassedWires(o, s, s') && s'.nodes == s.nodes
  {
    var s' := ShortCircuit(s, s.nodes[x], o.hydrated(x, round));
    forall g | g in s.runs ensures PassedWire(o, s, s', g) { if g != s.nodes[x] { assert SameWire(s, s', g); } }
  }

  /** A pass leaves every wire, but for the runs it completes, which were reported satisfied. */
  lemma {:induction false} DispatchPasses(cfg: Config, s: Scheduler, o: DispatchOracle, round: nat)
    requires Keyed(s)
    ensures PassedWires(o, s, Dispatch(cfg, s, o, round))
    decreases |s.readyQueue|
  {
    assert PassedWires(o, s, s);
    if s.readyQueue != [] && !s.faulted {
      var (s1, pick) := Pick(s, o.admit, round, |s.readyQueue|);
      PickKeepsWires(s, o.admit, round, |s.readyQueue|);
      PickKeepsEdges(s, o.admit, round, |s.readyQueue|);
      PickCompletesNothing(s, o.admit, round, |s.readyQueue|);
      PickKeepsKeys(s, o.admit, round, |s.readyQueue|);
      NothingPasses(o, s, s1);
      if pick.Some? {
        hide PassedWires, Pick, Dispatch, EdgesStay, WiresStay;
        var x := pick.value;
        var g := s1.nodes[x];
        var done, begun := ShortCircuit(s1, g, o.hydrated(x, round)), Begin(s1, g, InlineBuild);
        assert |done.readyQueue| <= |s1.readyQueue| && |begun.readyQueue| == |s1.readyQueue|;
        BeginPasses(o, s1, x, InlineBuild);
        BeginPasses(o, s1, x, PoolFlush);
        hide Keyed;
        ChosenIsKeyed(s1, x, o.hydrated(x, round));
        DispatchStep(cfg, s, o, round, s1, x);
        hide ShortCircuit, Begin, Enqueue;
        DispatchPasses(cfg, begun, o, round + 1);
        PassedTransitive(o, s1, begun, Dispatch(cfg, begun, o, round + 1));
        if o.satisfied(x, round) {
          ShortCircuitPasses(o, s1, x, round);
          DispatchPasses(cfg, done, o, round + 1);
          PassedTransitive(o, s1, done, Dispatch(cfg, done, o, round + 1));
        }
        PassedTransitive(o, s, s1, Dispatch(cfg, s, o, round));
      }
    }
  }

  lemma ChosenIsKeyed(s: Scheduler, x: ComputeScope, hydrated: Option<Wire>)
    requires Keyed(s) && s.IsReady(x)
    ensures s.Node(x).scope == x && Keyed(ShortCircuit(s, s.nodes[x], hydrated))
    ensures Keyed(Begin(s, s.nodes[x], InlineBuild))
  {
    ChosenCompletesOne(s, x, hydrated, x);
  }

  lemma {:induction false} PickKeepsKeys(s: Scheduler, admit: (ComputeScope, nat) -> bool, round: nat, budget: nat)
    ensures Pick(s, admit, round, budget).0.runs.Keys == s.runs.Keys
    decreases budget
  {
    if budget != 0 && s.readyQueue != [] {
      var x := s.readyQueue[0];
      if !s.IsReady(x) {
        PickKeepsKeys(TakeHead(s), admit, round, budget - 1);
      } else if !s.DepsComplete(s.Node(x)) {
        PickKeepsKeys(DemoteHead(s), admit, round, budget - 1);
      } else if !admit(x, round) {
        PickKeepsKeys(RotateHead(s), admit, round, budget - 1);
      }
    }
  }

  // --- the other sections -------------------------------------------------------------------

  lemma WiresStayHere(s: Scheduler)
    ensures WiresStay(s, s)
  {}

  lemma RefreshKeepsWires(s: Scheduler, g: RunId)
    requires g in s.runs
    ensures WiresStay(s, Refresh(s, g))
  {
    WiresStayHere(s);
    if !s.runs[g].BlocksReadinessRefresh() {
      var failed := FailedDependencyError(s, s.runs[g].dependencyScopes);
      MovingKeepsWires(s, g);
      FailingKeepsWires(s, g, if failed.Some? then failed.value else Failure(g, false));
      hide Promote, Demote, Fail, WiresStay;
      assert WiresStay(s, Refresh(s, g));
    }
  }

  lemma FailingKeepsWires(s: Scheduler, g: RunId, error: Failure)
    requires g in s.runs && !s.runs[g].state.Complete?
    ensures WiresStay(s, Fail(s, g, error))
  {
    hide Released;
    forall h | h in s.runs ensures SameWire(s, Fail(s, g, error), h) {}
  }

  lemma MovingKeepsWires(s: Scheduler, g: RunId)
    requires g in s.runs && !s.runs[g].state.Complete?
    ensures WiresStay(s, Promote(s, g)) && WiresStay(s, Demote(s, g))
  {
    PromotingKeepsWires(s, g);
    hide Promote;
  }

  lemma PromotingKeepsWires(s: Scheduler, g: RunId)
    requires g in s.runs && !s.runs[g].state.Complete?
    ensures WiresStay(s, Promote(s, g))
  {}

  lemma {:induction false} RefreshEachKeepsWires(s: Scheduler, scopes: seq<ComputeScope>, only: Option<ComputeScope>)
    ensures WiresStay(s, RefreshEach(s, scopes, only))
    decreases |scopes|
  {
    if scopes != [] {
      var chosen := s.Has(scopes[0]) && (only.Some? ==> only.value in s.Node(scopes[0]).dependencyScopes);
      var s1 := if chosen then Refresh(s, s.nodes[scopes[0]]) else s;
      if chosen { RefreshKeepsWires(s, s.nodes[scopes[0]]); }
      hide Refresh, WiresStay;
      RefreshEachKeepsWires(s1, scopes[1..], only);
      assert RefreshEach(s, scopes, only) == RefreshEach(s1, scopes[1..], only);
      if chosen { WiresStayTransitive(s, s1, RefreshEach(s, scopes, only)); }
    }
  }

  lemma ReplaceKeepsWires(s: Scheduler, x: ComputeScope)
    requires s.Has(x)
    ensures WiresStay(s, Replace(s, x))
  {}

  lemma FreshKeepsWires(s: Scheduler, run: NodeRun)
    requires HandedOut(s) && run.resultWire.None? && !run.awaitsExternalWake
    ensures WiresStay(s, FreshRun(s, run))
  {
    assert s.nextRun !in s.runs;
  }

  lemma RegisterKeepsWires(cfg: Config, s: Scheduler, p: PlannedNode, req: Request, satisfied: set<ComputeScope>)
    requires HandedOut(s)
    ensures WiresStay(s, Register(cfg, s, p, req, satisfied)) && HandedOut(Register(cfg, s, p, req, satisfied))
  {
    var drops := s.Has(p.scope) && s.Node(p.scope).IsTerminal() && p.scope !in satisfied;
    var s1 := if drops then Replace(s, p.scope) else s;
    if drops { ReplaceLeaves(s, p.scope); ReplaceKeepsWires(s, p.scope); } else { WiresStayHere(s); }
    var entry := EntryIndex(cfg.Steps(p.scope), if p.scope == req.scope then req.stepKind else None);
    assert WiresStay(s1, s1.(faulted := true)) && (HandedOut(s1) ==> HandedOut(s1.(faulted := true)));
    WiresStayTransitive(s, s1, s1.(faulted := true));
    if p.scope !in s1.nodes && entry.Some? {
      var run := NewRun(p, WaitingDeps, entry.value, req.band, req.bundle);
      FreshHolds(s1, run);
      FreshKeepsWires(s1, run);
      hide FreshRun, Replace, WiresStay, HandedOut, NewRun, EntryIndex;
      WiresStayTransitive(s, s1, FreshRun(s1, run));
    }
  }

  lemma {:induction false} RegisterAllKeepsWires(cfg: Config, s: Scheduler, planned: seq<PlannedNode>, req: Request,
          satisfied: set<ComputeScope>)
    requires HandedOut(s)
    ensures var s' := RegisterAll(cfg, s, planned, req, satisfied); WiresStay(s, s') && HandedOut(s')
    decreases |planned|
  {
    WiresStayHere(s);
    if planned != [] && !s.faulted {
      var s1 := Register(cfg, s, planned[0], req, satisfied);
      hide Register, WiresStay, HandedOut;
      RegisterKeepsWires(cfg, s, planned[0], req, satisfied);
      RegisterAllKeepsWires(cfg, s1, planned[1..], req, satisfied);
      WiresStayTransitive(s, s1, RegisterAll(cfg, s1, planned[1..], req, satisfied));
    }
  }

  lemma PlanSubmissionKeepsWires(cfg: Config, s: Scheduler, req: Request, plan: Plan)
    requires HandedOut(s)
    ensures WiresStay(s, PlanSubmission(cfg, s, req, plan))
  {
    var s1 := RegisterAll(cfg, s, plan.nodes, req, plan.satisfied);
    var s2 := PlaceholderRoot(s1, req);
    RegisterAllKeepsWires(cfg, s, plan.nodes, req, plan.satisfied);
    var root := NewRun(PlannedNode(req.scope, []), Complete, 0, req.band, req.bundle);
    FreshKeepsWires(s1, root);
    WiresStayHere(s1);
    hide RegisterAll, FreshRun, WiresStay, HandedOut;
    WiresStayTransitive(s, s1, s2);
    RefreshEachKeepsWires(s2, s2.order, None);
    WiresStayTransitive(s, s2, RefreshEach(s2, s2.order, None));
  }

  lemma AttachKeepsWires(s: Scheduler, g: RunId, band: PriorityBand)
    requires g in s.runs
    ensures WiresStay(s, Attach(s, g, band))
  {
    forall h | h in s.runs ensures SameWire(s, Attach(s, g, band), h) {}
  }

  lemma WakeKeepsWires(s: Scheduler, g: RunId)
    requires g in s.runs
    ensures WiresStay(s, WakeParked(s, g))
  {
    var woken := SetRun(s, g, s.runs[g].(generationAtSubmit := None, executionSealed := false));
    WiresStayHere(s);
    if s.runs[g].state.Parked? {
      MovingKeepsWires(woken, g);
      assert WiresStay(s, woken);
      hide Promote, Demote, WiresStay;
      WiresStayTransitive(s, woken, WakeParked(s, g));
    }
  }

  lemma FreshAttachKeepsWires(s: Scheduler, g: RunId)
    requires g in s.runs
    ensures WiresStay(s, ForceFreshAttach(s, g))
  {
    var s1 := WakeParked(s, g);
    var s2 := Refresh(s1, g);
    WakeKeepsWires(s, g);
    RefreshKeepsWires(s1, g);
    assert WiresStay(s2, ScheduleRestarts(s2, g));
    hide WakeParked, Refresh, WiresStay, ScheduleRestarts;
    WiresStayTransitive(s, s1, s2);
    WiresStayTransitive(s, s2, ScheduleRestarts(s2, g));
  }

  lemma SubmitPrepareKeepsWires(cfg: Config, s: Scheduler, req: Request, plan: Plan)
    requires HandedOut(s)
    ensures WiresStay(s, SubmitPrepare(cfg, s, req, plan))
  {
    if s.Has(req.scope) {
      var g := s.nodes[req.scope];
      var s1 := Replace(s, req.scope);
      var s2 := if req.forceFresh then ForceFreshAttach(s, g) else s;
      if s.runs[g].IsTerminal() { ReplaceLeaves(s, req.scope); }
      ReplaceKeepsWires(s, req.scope);
      WiresStayHere(s);
      hide PlanSubmission, Replace, ForceFreshAttach, Attach, WiresStay, HandedOut;
      if req.forceFresh && s.runs[g].IsTerminal() {
        PlanSubmissionKeepsWires(cfg, s1, req, plan);
        WiresStayTransitive(s, s1, SubmitPrepare(cfg, s, req, plan));
      } else {
        FreshAttachKeepsWires(s, g);
        AttachKeepsWires(s2, g, req.band);
        WiresStayTransitive(s, s2, SubmitPrepare(cfg, s, req, plan));
      }
    } else {
      PlanSubmissionKeepsWires(cfg, s, req, plan);
    }
  }

  // --- events -------------------------------------------------------------------------------

  /** The event defers the run softly, or onto a dependency that it does not demand: nothing but
      an external wake is to move the run on. */
  predicate DefersExternally(s: Scheduler, e: Event, g: RunId) {
    match e
    case SoftWaits(h) => h == g
    case Defers(h) => h == g && g in s.tasks && s.tasks[g].Defer? && !s.tasks[g].recovery.forceFresh
    case PersistDefers(h, recovery) => h == g && !recovery.forceFresh
    case _ => false
  }

  /** What an event may do to the wire of a run it hands no result to. */
  ghost predicate WireAfter(s: Scheduler, e: Event, s': Scheduler, g: RunId)
    requires g in s.runs
  {
    && g in s'.runs && s'.runs[g].scope == s.runs[g].scope
    && (s'.runs[g].awaitsExternalWake ==> s.runs[g].awaitsExternalWake || DefersExternally(s, e, g))
    && if HasPass(e) && s'.runs[g].state.Complete? && !s.runs[g].state.Complete?
          then CutShort(OracleOf(e), s.runs[g].scope, s.runs[g].resultWire, s'.runs[g].resultWire)
       else s'.runs[g].resultWire == s.runs[g].resultWire
  }

  /** A run the event created has no wire, unless the pass of the event completed it. */
  ghost predicate NewWire(e: Event, run: NodeRun) {
    && !run.awaitsExternalWake
    && (|| run.resultWire.None?
        || (HasPass(e) && run.state.Complete? && CutShort(OracleOf(e), run.scope, None, run.resultWire)))
  }

  predicate HasPass(e: Event) {
    e.Submits? || e.Ensures? || e.WakesParked? || e.Dispatches? || e.RunsIdle? || e.RunsCallback?
  }

  lemma PassLeavesWires(cfg: Config, s: Scheduler, e: Event, t: Scheduler, g: RunId)
    requires Possible(s, e) && HasPass(e) && WiresStay(s, t) && PassedWires(OracleOf(e), t, Apply(cfg, s, e))
    ensures var s' := Apply(cfg, s, e);
            && (g in s.runs ==> WireAfter(s, e, s', g))
            && (g in s'.runs && g !in s.runs ==> NewWire(e, s'.runs[g]))
  {
    hide CutShort;
    var s' := Apply(cfg, s, e);
    if g in s.runs { assert SameWire(s, t, g); }
    if g in t.runs { assert PassedWire(OracleOf(e), t, s', g); }
  }

  lemma PassStartKeepsWires(cfg: Config, s: Scheduler, e: Event)
    requires HandedOut(s) && PassStart(cfg, s, e).Some?
    ensures WiresStay(s, PassStart(cfg, s, e).value)
  {
    WiresStayHere(s);
    hide HandedOut, SubmitPrepare, Replace, RefreshEach, Consume, WiresStay;
    match e {
      case Submits(req, plan, _) => SubmitPrepareKeepsWires(cfg, s, req, plan);
      case Ensures(req, plan, _) => EnsurePrepareKeepsWires(cfg, s, req, plan);
      case WakesParked(req, plan, _) => SubmitPrepareKeepsWires(cfg, s, req, plan);
      case Dispatches(_) =>
      case RunsIdle(_) => RefreshEachKeepsWires(s, s.order, None);
      case RunsCallback(cb, plan, _) =>
        if cb.ForceFresh? {
          SubmitPrepareKeepsWires(cfg, s, CallbackRequest(cb), plan);
          ConsumingKeepsWires(s, SubmitPrepare(cfg, s, CallbackRequest(cb), plan), cb);
        } else {
          ConsumingKeepsWires(s, s, cb);
        }
    }
  }

  lemma ConsumingKeepsWires(s: Scheduler, s1: Scheduler, cb: Callback)
    requires WiresStay(s, s1)
    ensures WiresStay(s, Consume(s1, cb)) && WiresStay(s, Schedule(s1, cb))
  {
    forall g | g in s.runs ensures SameWire(s, Consume(s1, cb), g) && SameWire(s, Schedule(s1, cb), g) {
      assert SameWire(s, s1, g);
    }
  }

  lemma EnsurePrepareKeepsWires(cfg: Config, s: Scheduler, req: Request, plan: Plan)
    requires HandedOut(s)
    ensures var hollow := s.Has(req.scope) && s.Node(req.scope).IsTerminal() && !req.forceFresh;
            WiresStay(s, SubmitPrepare(cfg, if hollow then Replace(s, req.scope) else s, req, plan))
  {
    if s.Has(req.scope) && s.Node(req.scope).IsTerminal() && !req.forceFresh {
      var s1 := Replace(s, req.scope);
      ReplaceLeaves(s, req.scope);
      ReplaceKeepsWires(s, req.scope);
      hide SubmitPrepare, Replace, WiresStay, HandedOut;
      SubmitPrepareKeepsWires(cfg, s1, req, plan);
      WiresStayTransitive(s, s1, SubmitPrepare(cfg, s1, req, plan));
    } else {
      SubmitPrepareKeepsWires(cfg, s, req, plan);
    }
  }

  lemma CoreIsKeyed(cfg: Config, s: Scheduler)
    requires Core(cfg, s)
    ensures Keyed(s) && HandedOut(s)
  {}

  lemma CallersLeaveWires(cfg: Config, s: Scheduler, e: Event, g: RunId)
    requires Inv(cfg, s) && !s.faulted && Possible(s, e) && Disciplined(cfg, s, e) && PassStart(cfg, s, e).Some?
    ensures var s' := Apply(cfg, s, e);
            && (g in s.runs ==> WireAfter(s, e, s', g))
            && (g in s'.runs && g !in s.runs ==> NewWire(e, s'.runs[g]))
  {
    var t := PassStart(cfg, s, e).value;
    assert HasPass(e);
    CoreIsKeyed(cfg, s);
    hide Inv, Core, Disciplined, Possible, Apply, PassStart, HandedOut, Keyed, Dispatch, PassedWires;
    PassStartIsCore(cfg, s, e);
    CoreIsKeyed(cfg, t);
    PassStartKeepsWires(cfg, s, e);
    PassEnds(cfg, s, e);
    DispatchPasses(cfg, t, OracleOf(e), 0);
    PassLeavesWires(cfg, s, e, t, g);
  }

  /** A section that works on one run without handing it a result. */
  lemma RunWorkLeavesWires(cfg: Config, s: Scheduler, e: Event, h: RunId, g: RunId)
    requires Possible(s, e) && !HasPass(e) && OnlyRecord(s, Apply(cfg, s, e), h)
    requires Apply(cfg, s, e).runs[h].awaitsExternalWake ==> s.runs[h].awaitsExternalWake || DefersExternally(s, e, h)
    ensures var s' := Apply(cfg, s, e);
            && (g in s.runs ==> WireAfter(s, e, s', g)) && (g in s'.runs && g !in s.runs ==> NewWire(e, s'.runs[g]))
  {
    hide Apply;
  }

  lemma RaisingOnlyMoves(s: Scheduler, g: RunId, error: Failure)
    requires g in s.runs
    ensures OnlyMoves(s, RaiseIn(s, g, error), g) && OnlyMoves(s, Fail(s, g, error), g)
    ensures OnlyMoves(s, RaiseIfRunning(s, g, error), g)
  {
    SettlingOnlyMoves(s, g, Failed, Some(error));
    assert OnlyMoves(s, s, g);
    hide Settle, OnlyMoves, DropTask;
    assert DropTask(s, g).runs == s.runs by { DroppingKeepsRuns(s, g); }
  }

  lemma DroppingKeepsRuns(s: Scheduler, g: RunId)
    ensures DropTask(s, g).runs == s.runs
  {}

  lemma InlineWorkOnlyMoves(cfg: Config, s: Scheduler, e: Event)
    requires Possible(s, e)
    requires e.SealsInline? || e.BuildRaises? || e.SealsPool? || e.HandOffRaises?
    ensures OnlyMoves(s, Apply(cfg, s, e), e.g)
  {
    if e.BuildRaises? || e.HandOffRaises? { RaisingOnlyMoves(s, e.g, Failure(e.g, e.isAbort)); }
    DroppingKeepsRuns(s, e.g);
    hide RaiseIn, RaiseIfRunning, DropTask;
  }

  lemma DeferringOnlyMoves(s: Scheduler, g: RunId, deps: seq<ComputeScope>, external: bool)
    requires g in s.runs
    ensures OnlyRecord(s, Deferred(s, g, deps, external), g)
    ensures Deferred(s, g, deps, external).runs[g].awaitsExternalWake == external
  {}

  lemma RecoveringOnlyMoves(s: Scheduler, g: RunId, recovery: Recovery)
    requires g in s.runs
    ensures OnlyRecord(s, RecoverOnDependency(s, g, recovery), g)
    ensures recovery.forceFresh ==> OnlyMoves(s, RecoverOnDependency(s, g, recovery), g)
  {
    var run := s.runs[g];
    var dep := recovery.dependencyScope;
    var grafts := dep != run.scope && dep !in run.dependencyScopes;
    var deps := if grafts then run.dependencyScopes + [dep] else run.dependencyScopes;
    var cb := ForceFresh(dep, run.priorityBand, recovery.stepKind, run.bundle);
    DeferringOnlyMoves(s, g, deps, !recovery.forceFresh);
    DroppingKeepsRuns(s, g);
    var demoted := Deferred(s, g, deps, !recovery.forceFresh);
    assert Schedule(demoted, cb).runs == demoted.runs;
    hide Deferred, Schedule, DropTask;
  }

  lemma DeferralsOnlyMove(cfg: Config, s: Scheduler, e: Event)
    requires Possible(s, e) && (e.SoftWaits? || e.Defers? || e.PersistDefers?)
    ensures OnlyRecord(s, Apply(cfg, s, e), e.g)
    ensures Apply(cfg, s, e).runs[e.g].awaitsExternalWake ==>
            s.runs[e.g].awaitsExternalWake || DefersExternally(s, e, e.g)
  {
    DroppingKeepsRuns(s, e.g);
    hide Deferred, RecoverOnDependency, DropTask;
    match e {
      case SoftWaits(g) => DeferringOnlyMoves(s, g, s.runs[g].dependencyScopes, true);
      case Defers(g) => RecoveringOnlyMoves(s, g, s.tasks[g].recovery);
      case PersistDefers(g, recovery) => RecoveringOnlyMoves(s, g, recovery);
    }
  }

  lemma PersistingOnlyMoves(cfg: Config, s: Scheduler, e: Event)
    requires Possible(s, e) && (e.PersistChecks? || e.PersistWrites? || e.PersistRaises? || e.PersistFinishes?)
    ensures OnlyMoves(s, Apply(cfg, s, e), e.g)
  {
    var g := e.g;
    hide PersistCheck, PersistWrite, PersistFinish, RaiseIfRunning, OnlyMoves;
    match e {
      case PersistChecks(_) => PersistStepsOnlyMove(cfg, s, g);
      case PersistWrites(_) => PersistStepsOnlyMove(cfg, s, g);
      case PersistRaises(_, isAbort) => RaisingOnlyMoves(s, g, Failure(g, isAbort));
      case PersistFinishes(_) => PersistStepsOnlyMove(cfg, s, g);
    }
  }

  lemma PersistStepsOnlyMove(cfg: Config, s: Scheduler, g: RunId)
    requires g in s.runs && g in s.tasks
    ensures s.tasks[g].PersistQueued? ==> OnlyMoves(s, PersistCheck(s, g), g)
    ensures s.tasks[g].PersistCalling? ==> OnlyMoves(s, PersistWrite(s, g), g)
    ensures s.tasks[g].PersistReturned? ==> OnlyMoves(s, PersistFinish(cfg, s, g), g)
  {
    DroppingKeepsRuns(s, g);
    RetryingOnlyMoves(s, g);
    ContinuingOnlyMoves(cfg, s, g);
    SettlingOnlyMoves(s, g, Complete, None);
    hide RetryAfterEpochBump, ContinueStep, Settle, DropTask;
  }

  /** A report moves only the running node of its scope, and if it brings no result, not its wire. */
  lemma ReportOnlyMoves(cfg: Config, s: Scheduler, x: ComputeScope, submitter: RunId, end: StepEnd)
    requires s.Has(x) && s.Node(x).state.Running?
    ensures var s', h := CompletePoolStep(cfg, s, x, submitter, end), s.nodes[x];
            && h in s'.runs && s'.runs == s.runs[h := s'.runs[h]] && s'.runs[h].scope == s.runs[h].scope
            && (s'.runs[h].awaitsExternalWake ==> s.runs[h].awaitsExternalWake)
            && (end.Raised? ==> s'.runs[h].resultWire == s.runs[h].resultWire)
  {
    var h := s.nodes[x];
    var s1 := if submitter == h then s else DropTask(s, submitter);
    DroppingKeepsRuns(s, submitter);
    if end.Raised? {
      RaisingOnlyMoves(s1, h, Failure(h, end.isAbort));
    } else {
      StepLeavesWire(cfg, s1, h, end.result);
    }
    hide RaiseIn, AfterStepSuccess, DropTask, Current, LeavesWire;
  }

  lemma ReportsLeaveWires(cfg: Config, s: Scheduler, e: Event, g: RunId)
    requires Possible(s, e) && (e.PoolReports? || e.InlineEnds?)
    ensures g in s.runs && ReturnedTo(s, e, g).None? ==> WireAfter(s, e, Apply(cfg, s, e), g)
    ensures g in Apply(cfg, s, e).runs <==> g in s.runs
  {
    if e.InlineEnds? { InlineEndLeavesWires(cfg, s, e, g); } else { PoolReportLeavesWires(cfg, s, e, g); }
    hide *;
  }

  lemma InlineEndLeavesWires(cfg: Config, s: Scheduler, e: Event, g: RunId)
    requires Possible(s, e) && e.InlineEnds?
    ensures g in s.runs && ReturnedTo(s, e, g).None? ==> WireAfter(s, e, Apply(cfg, s, e), g)
    ensures g in Apply(cfg, s, e).runs <==> g in s.runs
  {
    if e.end.Returned? {
      StepLeavesWire(cfg, s, e.g, e.end.result);
    } else {
      RaisingOnlyMoves(s, e.g, Failure(e.g, e.end.isAbort));
    }
    hide RaiseIn, AfterStepSuccess, Current, LeavesWire;
  }

  lemma PoolReportLeavesWires(cfg: Config, s: Scheduler, e: Event, g: RunId)
    requires Possible(s, e) && e.PoolReports?
    ensures g in s.runs && ReturnedTo(s, e, g).None? ==> WireAfter(s, e, Apply(cfg, s, e), g)
    ensures g in Apply(cfg, s, e).runs <==> g in s.runs
  {
    UnmatchedReport(cfg, s, e);
    if s.Has(e.scope) && s.Node(e.scope).state.Running? { ReportOnlyMoves(cfg, s, e.scope, e.submitter, e.end); }
    hide CompletePoolStep;
  }

  lemma UnmatchedReport(cfg: Config, s: Scheduler, e: Event)
    requires Possible(s, e)
    ensures e.PoolReports? && !(s.Has(e.scope) && s.Node(e.scope).state.Running?) ==> Apply(cfg, s, e).runs == s.runs
  {
    hide AfterStepSuccess, RaiseIn;
  }

  lemma EnvironmentLeavesWires(cfg: Config, s: Scheduler, e: Event, g: RunId)
    requires Possible(s, e) && PassStart(cfg, s, e).None?
    requires e.WakesParked? || e.PlanningRaises? || e.RunsCallback? || e.Aborts? || e.Wipes?
    ensures g in s.runs ==> WireAfter(s, e, Apply(cfg, s, e), g)
    ensures g in Apply(cfg, s, e).runs && g !in s.runs ==> NewWire(e, Apply(cfg, s, e).runs[g])
  {
    var s' := Apply(cfg, s, e);
    WiresStayHere(s);
    match e {
      case WakesParked(_, _, _) =>
      case PlanningRaises(x) => ReplaceKeepsWires(s, x);
      case RunsCallback(cb, _, _) =>
        var t := RefreshEach(s, s.order, Some(cb.completed));
        RefreshEachKeepsWires(s, s.order, Some(cb.completed));
        ConsumingKeepsWires(s, t, DispatchReady);
        ConsumingKeepsWires(s, Schedule(t, DispatchReady), cb);
      case Aborts(x, isAbort, _) =>
        if s.Has(x) && !s.Node(x).IsTerminal() { FailingKeepsWires(s, s.nodes[x], Failure(s.nodes[x], isAbort)); }
      case Wipes(_) =>
    }
    assert WiresStay(s, s');
    hide WiresStay, Apply, CutShort;
    if g in s.runs { assert SameWire(s, s', g) by { WireStays(s, s', g); } }
    if g in s'.runs && g !in s.runs { NewStays(s, s', g); }
  }

  lemma WireStays(s: Scheduler, s': Scheduler, g: RunId)
    requires WiresStay(s, s') && g in s.runs
    ensures SameWire(s, s', g)
  {}

  lemma NewStays(s: Scheduler, s': Scheduler, g: RunId)
    requires WiresStay(s, s') && g in s'.runs && g !in s.runs
    ensures s'.runs[g].resultWire.None?
  {}

  /** What each event does to each wire: an accepted step leaves its payload, or what there was,
      or the empty wire where it must; a pass gives one to a run it completes as satisfied; and
      nothing else changes any. */
  lemma EventLeavesWires(cfg: Config, s: Scheduler, e: Event, g: RunId)
    requires Inv(cfg, s) && !s.faulted && Possible(s, e) && Disciplined(cfg, s, e)
    ensures var s' := Apply(cfg, s, e);
            && (g in s.runs ==>
                  && g in s'.runs
                  && (s'.runs[g].awaitsExternalWake ==> s.runs[g].awaitsExternalWake || DefersExternally(s, e, g))
                  && if AcceptedBy(s, e, g).Some?
                        then LeavesWire(s.runs[g].resultWire, AcceptedBy(s, e, g).value, s'.runs[g].resultWire)
                     else WireAfter(s, e, s', g))
            && (g in s'.runs && g !in s.runs ==> NewWire(e, s'.runs[g]))
  {
    hide Inv, Disciplined, Apply, LeavesWire, CutShort, OnlyRecord, Current, PassStart;
    if PassStart(cfg, s, e).Some? {
      CallersLeaveWires(cfg, s, e, g);
      assert HasPass(e) by { PassesAreCalled(cfg, s, e); }
    } else if e.PoolReports? || e.InlineEnds? {
      ReportsLeaveWires(cfg, s, e, g);
      if ReturnedTo(s, e, g).Some? { AcceptedStepLeavesWire(cfg, s, e, g); }
    } else if e.SealsInline? || e.BuildRaises? || e.SealsPool? || e.HandOffRaises? {
      InlineWorkOnlyMoves(cfg, s, e);
      RunWorkLeavesWires(cfg, s, e, e.g, g);
    } else if e.SoftWaits? || e.Defers? || e.PersistDefers? {
      DeferralsOnlyMove(cfg, s, e);
      RunWorkLeavesWires(cfg, s, e, e.g, g);
    } else if e.PersistChecks? || e.PersistWrites? || e.PersistRaises? || e.PersistFinishes? {
      PersistingOnlyMoves(cfg, s, e);
      RunWorkLeavesWires(cfg, s, e, e.g, g);
    } else {
      PassesAreCalled(cfg, s, e);
      EnvironmentLeavesWires(cfg, s, e, g);
    }
  }

  lemma PassesAreCalled(cfg: Config, s: Scheduler, e: Event)
    ensures PassStart(cfg, s, e).Some? ==> HasPass(e)
    ensures PassStart(cfg, s, e).None? && HasPass(e) ==> e.WakesParked? || e.RunsCallback?
  {
    hide SubmitPrepare, Replace, RefreshEach, Consume;
  }

  // --- runs ---------------------------------------------------------------------------------

  /** The payload of the last accepted step of the run, before the `i`th state, that brought one. */
  ghost function LastPayload(states: seq<Scheduler>, events: seq<Event>, i: nat, g: RunId): Option<Wire>
    requires i <= |events| && |events| < |states|
  {
    if i == 0 then None
    else
      var r := AcceptedBy(states[i - 1], events[i - 1], g);
      if r.Some? && r.value.payload.Some? then r.value.payload else LastPayload(states, events, i - 1, g)
  }

  /** The `k`th event was an accepted step of the run that had no payload and had to leave a wire. */
  ghost predicate EndsEmpty(states: seq<Scheduler>, events: seq<Event>, k: int, g: RunId) {
    && 0 <= k < |events| && k < |states|
    && var r := AcceptedBy(states[k], events[k], g);
       r.Some? && r.value.payload.None? && (r.value.outcome.Persist? || r.value.outcome.Done?)
  }

  /** The pass of the `k`th event found the run satisfied and completed it with this wire. */
  ghost predicate CutShortAt(states: seq<Scheduler>, events: seq<Event>, k: int, g: RunId, wire: Option<Wire>) {
    && 0 <= k < |events| && k + 1 < |states|
    && HasPass(events[k]) && g in states[k + 1].runs && states[k + 1].runs[g].state.Complete?
    && (g in states[k].runs ==> !states[k].runs[g].state.Complete?)
    && CutShort(OracleOf(events[k]), states[k + 1].runs[g].scope, None, wire)
  }

  /** Where a wire that no step brought comes from. */
  ghost predicate FromNoPayload(states: seq<Scheduler>, events: seq<Event>, i: nat, g: RunId, wire: Option<Wire>) {
    || wire.None?
    || (wire == Some(EmptyWire) && exists k :: k < i && EndsEmpty(states, events, k, g))
    || (exists k :: k < i && CutShortAt(states, events, k, g, wire))
  }

  /** In every run of the orchestrator: a run's wire is the payload of the last accepted step that
      brought one.  Where none has, it is none, or the empty wire of a step that had to leave one,
      or what was hydrated when the run was cut short. */
  lemma {:induction false} WiresAreTheLastPayloads(cfg: Config, states: seq<Scheduler>, events: seq<Event>, i: nat,
          g: RunId)
    requires IsRun(cfg, states, events) && i < |states| && g in states[i].runs
    ensures |states| == |events| + 1
    ensures if LastPayload(states, events, i, g).Some?
              then states[i].runs[g].resultWire == LastPayload(states, events, i, g)
            else FromNoPayload(states, events, i, g, states[i].runs[g].resultWire)
  {
    hide Inv, Possible, Disciplined, Apply, CutShort, Current, LeavesWire, Guarantees;
    assert |states| == |events| + 1;
    assert states[0] == INITIAL;
    if i > 0 {
      RunStep(cfg, states, events, i);
      EveryRunIsSafe(cfg, states, events, i - 1);
      hide IsRun;
      EventLeavesWires(cfg, states[i - 1], events[i - 1], g);
      if g in states[i - 1].runs {
        WiresAreTheLastPayloads(cfg, states, events, i - 1, g);
        WireGoesOn(cfg, states, events, i, g);
      } else {
        NoStepBefore(cfg, states, events, i - 1, g);
        WireStarts(states, events, i, g);
      }
    }
  }

  lemma {:induction false} NoStepBefore(cfg: Config, states: seq<Scheduler>, events: seq<Event>, i: nat, g: RunId)
    requires IsRun(cfg, states, events) && i < |states| && g !in states[i].runs
    ensures LastPayload(states, events, i, g) == None
  {
    hide Inv, Apply, Possible, Disciplined, Current;
    assert |states| == |events| + 1;
    if i > 0 {
      EveryRunIsSafe(cfg, states, events, i);
      NotThereBefore(states[i - 1], states[i], events[i - 1], g);
      hide IsRun, Guarantees;
      NoStepBefore(cfg, states, events, i - 1, g);
    }
  }

  lemma NotThereBefore(s: Scheduler, s': Scheduler, e: Event, g: RunId)
    requires Guarantees(s, s') && g !in s'.runs
    ensures g !in s.runs && AcceptedBy(s, e, g) == None
  {
    hide Current;
  }

  lemma WireStarts(states: seq<Scheduler>, events: seq<Event>, i: nat, g: RunId)
    requires 0 < i <= |events| && |events| < |states| && g !in states[i - 1].runs && g in states[i].runs
    requires LastPayload(states, events, i - 1, g) == None && NewWire(events[i - 1], states[i].runs[g])
    ensures LastPayload(states, events, i, g) == None
    ensures FromNoPayload(states, events, i, g, states[i].runs[g].resultWire)
  {
    var wire := states[i].runs[g].resultWire;
    assert AcceptedBy(states[i - 1], events[i - 1], g) == None;
    if wire.Some? { assert CutShortAt(states, events, i - 1, g, wire); }
  }

  /** One event later, in the three ways a wire may go on. */
  lemma WireGoesOn(cfg: Config, states: seq<Scheduler>, events: seq<Event>, i: nat, g: RunId)
    requires 0 < i <= |events| && |events| < |states| && g in states[i - 1].runs && g in states[i].runs
    requires if AcceptedBy(states[i - 1], events[i - 1], g).Some?
               then LeavesWire(states[i - 1].runs[g].resultWire, AcceptedBy(states[i - 1], events[i - 1], g).value,
                               states[i].runs[g].resultWire)
             else WireAfter(states[i - 1], events[i - 1], states[i], g)
    requires if LastPayload(states, events, i - 1, g).Some?
               then states[i - 1].runs[g].resultWire == LastPayload(states, events, i - 1, g)
             else FromNoPayload(states, events, i - 1, g, states[i - 1].runs[g].resultWire)
    ensures if LastPayload(states, events, i, g).Some?
              then states[i].runs[g].resultWire == LastPayload(states, events, i, g)
            else FromNoPayload(states, events, i, g, states[i].runs[g].resultWire)
  {
    var s, e, s' := states[i - 1], events[i - 1], states[i];
    var before, after := s.runs[g].resultWire, s'.runs[g].resultWire;
    hide CutShort, AcceptedBy;
    assert EndsEmpty(states, events, i - 1, g) || AcceptedBy(s, e, g).None? || after == before
           || after == AcceptedBy(s, e, g).value.payload;
    if AcceptedBy(s, e, g).None? && after != before
        && before.None? { assert CutShortAt(states, events, i - 1, g, after); }
    if before.Some? {
      CutShortKeeps(OracleOf(e), s.runs[g].scope, before, after);
    }
  }

  lemma CutShortKeeps(o: DispatchOracle, x: ComputeScope, before: Option<Wire>, after: Option<Wire>)
    requires before.Some?
    ensures CutShort(o, x, before, after) ==> after == before
  {}

  lemma ExternalWaitBegins(cfg: Config, s: Scheduler, e: Event, g: RunId)
    requires Inv(cfg, s) && !s.faulted && Possible(s, e) && Disciplined(cfg, s, e)
    requires g in Apply(cfg, s, e).runs && Apply(cfg, s, e).runs[g].awaitsExternalWake
    ensures (g in s.runs && s.runs[g].awaitsExternalWake) || DefersExternally(s, e, g)
  {
    hide Inv, Disciplined, CutShort, Current, LeavesWire, Possible, Apply, DefersExternally;
    EventLeavesWires(cfg, s, e, g);
  }

  lemma ExternalWaitInRun(cfg: Config, states: seq<Scheduler>, events: seq<Event>, i: nat, g: RunId)
    requires IsRun(cfg, states, events) && i < |states| && g in states[i].runs && states[i].runs[g].awaitsExternalWake
    ensures 0 < i <= |events|
    ensures (g in states[i - 1].runs && states[i - 1].runs[g].awaitsExternalWake)
            || DefersExternally(states[i - 1], events[i - 1], g)
  {
    hide Inv, Possible, Disciplined, Apply, DefersExternally, Guarantees;
    assert states[0] == INITIAL;
    assert |states| == |events| + 1;
    hide IsRun;
    RunStep(cfg, states, events, i);
    EveryRunIsSafe(cfg, states, events, i - 1);
    ExternalWaitBegins(cfg, states[i - 1], events[i - 1], g);
  }

  /** A run awaits an external wake only since an event deferred it softly, or onto a dependency
      that was not demanded. */
  lemma {:induction false} ExternalWaitsWereDeferrals(cfg: Config, states: seq<Scheduler>, events: seq<Event>, i: nat,
          g: RunId) returns (k: nat)
    requires IsRun(cfg, states, events) && i < |states| && g in states[i].runs && states[i].runs[g].awaitsExternalWake
    ensures k < i <= |events| && DefersExternally(states[k], events[k], g)
    ensures forall j :: k < j <= i ==> g in states[j].runs && states[j].runs[g].awaitsExternalWake
  {
    hide Inv, Possible, Disciplined, Apply, IsRun, DefersExternally, Guarantees;
    ExternalWaitInRun(cfg, states, events, i, g);
    if g in states[i - 1].runs && states[i - 1].runs[g].awaitsExternalWake {
      k := ExternalWaitsWereDeferrals(cfg, states, events, i - 1, g);
    } else {
      k := i - 1;
    }
  }
}
