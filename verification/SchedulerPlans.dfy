/** What a submission registers: each planned node as it was planned, for every run of the orchestrator. */
module SchedulerPlans {
  import opened Prelude
  import opened Scheduler
  import opened SchedulerInvariants
  import opened SchedulerSubmit
  import opened SchedulerEvents
  import opened SchedulerTheorems
  import opened SchedulerFaults

  // --- one planned node ---------------------------------------------------------------------

  /** The first profile step of the requested kind; the very first when none is asked for. */
  predicate IsEntry(steps: seq<StepSpec>, kind: Option<string>, index: nat) {
    if kind.None? then index == 0
    else
      && index < |steps| && steps[index].stepKind == kind.value
      && forall j :: 0 <= j < index ==> steps[j].stepKind != kind.value
  }

  /** The run is what the plan and the request say: the planned edges, all of them and no others,
      the request's band and bundle, and the entry step. */
  predicate AsPlanned(cfg: Config, req: Request, p: PlannedNode, run: NodeRun) {
    && run.scope == p.scope && run.dependencyScopes == p.dependencyScopes
    && run.priorityBand == req.band && run.bundle == req.bundle && run.stepIndex == 0
    && IsEntry(cfg.Steps(p.scope), if p.scope == req.scope then req.stepKind else None, run.profileStepIndex)
  }

  /** A run that did not exist before holds the planned scope, as planned. */
  ghost predicate NewlyHeld(cfg: Config, s: Scheduler, s': Scheduler, req: Request, p: PlannedNode) {
    && p.scope in s'.nodes && s'.nodes[p.scope] !in s.runs && s'.nodes[p.scope] in s'.runs
    && AsPlanned(cfg, req, p, s'.runs[s'.nodes[p.scope]])
  }

  /** The same run holds the scope, or still none. */
  ghost predicate SameHolder(s: Scheduler, s': Scheduler, x: ComputeScope) {
    (x in s'.nodes <==> x in s.nodes) && (x in s.nodes ==> s'.nodes[x] == s.nodes[x])
  }

  /** Every run ever created has a number that was handed out. */
  ghost predicate HandedOut(s: Scheduler) {
    && (forall g :: g in s.runs ==> g < s.nextRun)
    && (forall x {:trigger s.nodes[x]} :: x in s.nodes ==> s.nodes[x] in s.runs)
  }

  ghost predicate RunStays(s: Scheduler, s': Scheduler, g: RunId)
    requires g in s.runs
  {
    g in s'.runs && SamePlan(s.runs[g], s'.runs[g]) && s'.runs[g].state == s.runs[g].state
  }

  /** Runs stay, with their plan and state. */
  ghost predicate RunsStay(s: Scheduler, s': Scheduler) {
    forall g {:trigger RunStays(s, s', g)} :: g in s.runs ==> RunStays(s, s', g)
  }

  /** Only the given scope may have got another holder. */
  ghost predicate OthersHeld(s: Scheduler, s': Scheduler, x: ComputeScope) {
    forall y {:trigger SameHolder(s, s', y)} :: y != x ==> SameHolder(s, s', y)
  }

  lemma ReplaceLeaves(s: Scheduler, x: ComputeScope)
    requires HandedOut(s) && s.Has(x)
    ensures HandedOut(Replace(s, x)) && RunsStay(s, Replace(s, x)) && Replace(s, x).faulted == s.faulted
    ensures x !in Replace(s, x).nodes && OthersHeld(s, Replace(s, x), x)
  {}

  lemma FreshHolds(s: Scheduler, run: NodeRun)
    requires HandedOut(s)
    ensures var s' := FreshRun(s, run);
            && HandedOut(s') && RunsStay(s, s') && s'.faulted == s.faulted
            && run.scope in s'.nodes && s'.nodes[run.scope] == s.nextRun && s.nextRun !in s.runs
            && s.nextRun in s'.runs && s'.runs[s.nextRun] == run
            && OthersHeld(s, s', run.scope)
  {
    assert s.nextRun !in s.runs;
  }

  /** A node that is added where no run is kept. */
  lemma AddedHolds(cfg: Config, s: Scheduler, s1: Scheduler, p: PlannedNode, req: Request, index: nat)
    requires HandedOut(s1) && RunsStay(s, s1) && OthersHeld(s, s1, p.scope)
    requires IsEntry(cfg.Steps(p.scope), if p.scope == req.scope then req.stepKind else None, index)
    ensures var s' := FreshRun(s1, NewRun(p, WaitingDeps, index, req.band, req.bundle));
            && HandedOut(s') && RunsStay(s, s') && OthersHeld(s, s', p.scope)
            && NewlyHeld(cfg, s, s', req, p) && !s'.Node(p.scope).IsTerminal()
  {
    var run := NewRun(p, WaitingDeps, index, req.band, req.bundle);
    var s' := FreshRun(s1, run);
    FreshHolds(s1, run);
    assert AsPlanned(cfg, req, p, run);
    assert s1.nextRun in s.runs ==> RunStays(s, s1, s1.nextRun);
    hide FreshRun, AsPlanned, NewRun;
    RunsStayTransitive(s, s1, s');
    forall y | y != p.scope ensures SameHolder(s, s', y) { assert SameHolder(s, s1, y) && SameHolder(s1, s', y); }
  }

  /** Registering one planned node that does not raise. */
  lemma RegisterHolds(cfg: Config, s: Scheduler, p: PlannedNode, req: Request, satisfied: set<ComputeScope>)
    requires HandedOut(s) && !Register(cfg, s, p, req, satisfied).faulted
    ensures var s' := Register(cfg, s, p, req, satisfied);
            && HandedOut(s') && RunsStay(s, s') && OthersHeld(s, s', p.scope)
            && (if Kept(s, p.scope, satisfied) then SameHolder(s, s', p.scope)
                else NewlyHeld(cfg, s, s', req, p) && !s'.Node(p.scope).IsTerminal())
  {
    NothingChanged(s, p.scope);
    if !Kept(s, p.scope, satisfied) {
      var s1 := if s.Has(p.scope) then Replace(s, p.scope) else s;
      if s.Has(p.scope) { ReplaceLeaves(s, p.scope); }
      var kind := if p.scope == req.scope then req.stepKind else None;
      var entry := EntryIndex(cfg.Steps(p.scope), kind);
      assert p.scope !in s1.nodes;
      hide FreshRun, Replace, EntryIndex, RunsStay, HandedOut, NewlyHeld, OthersHeld, IsEntry;
      if entry.Some? {
        EntryIsFirst(cfg.Steps(p.scope), kind);
        AddedHolds(cfg, s, s1, p, req, entry.value);
      }
    }
  }

  lemma NothingChanged(s: Scheduler, x: ComputeScope)
    ensures RunsStay(s, s) && OthersHeld(s, s, x) && SameHolder(s, s, x)
  {}

  lemma EntryIsFirst(steps: seq<StepSpec>, kind: Option<string>)
    requires EntryIndex(steps, kind).Some?
    ensures IsEntry(steps, kind, EntryIndex(steps, kind).value)
  {}

  lemma RunsStayTransitive(s: Scheduler, s1: Scheduler, s2: Scheduler)
    requires RunsStay(s, s1) && RunsStay(s1, s2)
    ensures RunsStay(s, s2)
  {
    forall g | g in s.runs ensures RunStays(s, s2, g) { assert RunStays(s, s1, g) && RunStays(s1, s2, g); }
  }

  // --- a whole plan -------------------------------------------------------------------------

  /** No earlier node of the plan has the scope of the `i`th. */
  predicate FirstOfScope(planned: seq<PlannedNode>, i: nat)
    requires i < |planned|
  {
    forall j :: 0 <= j < i ==> planned[j].scope != planned[i].scope
  }

  predicate Unplanned(planned: seq<PlannedNode>, x: ComputeScope) { forall p :: p in planned ==> p.scope != x }

  /** What registering a list of nodes does to the scope of one of them, and to all others. */
  lemma {:induction false} RegisterAllHolds(cfg: Config, s: Scheduler, planned: seq<PlannedNode>, req: Request,
          satisfied: set<ComputeScope>)
    requires HandedOut(s) && !s.faulted && !RegisterAll(cfg, s, planned, req, satisfied).faulted
    ensures var s' := RegisterAll(cfg, s, planned, req, satisfied);
            && HandedOut(s') && RunsStay(s, s')
            && forall x {:trigger SameHolder(s, s', x)} :: Unplanned(planned, x) || Kept(s, x, satisfied) ==>
                 SameHolder(s, s', x)
    decreases |planned|
  {
    if planned != [] {
      var s1 := Register(cfg, s, planned[0], req, satisfied);
      RegisteredFirst(cfg, s, planned, req, satisfied);
      RegisterHolds(cfg, s, planned[0], req, satisfied);
      KeptWhile(s, s1, satisfied, planned[0].scope);
      hide Register, RunsStay, HandedOut, Kept;
      RegisterAllHolds(cfg, s1, planned[1..], req, satisfied);
      var s' := RegisterAll(cfg, s1, planned[1..], req, satisfied);
      RunsStayTransitive(s, s1, s');
      forall x | Unplanned(planned, x) || Kept(s, x, satisfied) ensures SameHolder(s, s', x) {
        assert SameHolder(s, s1, x) && SameHolder(s1, s', x);
      }
    }
  }

  /** What is kept stays so while runs stay and its holder does. */
  lemma KeptWhile(s: Scheduler, s1: Scheduler, satisfied: set<ComputeScope>, changed: ComputeScope)
    requires HandedOut(s) && RunsStay(s, s1) && OthersHeld(s, s1, changed)
    requires Kept(s, changed, satisfied) ==> SameHolder(s, s1, changed)
    ensures forall x {:trigger Kept(s, x, satisfied)} :: Kept(s, x, satisfied) ==> Kept(s1, x, satisfied)
    ensures forall x {:trigger Kept(s1, x, satisfied)} :: x != changed && !Kept(s, x, satisfied) ==>
            !Kept(s1, x, satisfied)
  {
    forall x ensures Kept(s, x, satisfied) ==> Kept(s1, x, satisfied)
      ensures x != changed && !Kept(s, x, satisfied) ==> !Kept(s1, x, satisfied)
    {
      assert x != changed ==> SameHolder(s, s1, x);
      if x in s.nodes { assert RunStays(s, s1, s.nodes[x]); }
    }
  }

  lemma {:induction false} RegisterAllHoldsNew(cfg: Config, s: Scheduler, planned: seq<PlannedNode>, req: Request,
          satisfied: set<ComputeScope>, i: nat)
    requires HandedOut(s) && !s.faulted && !RegisterAll(cfg, s, planned, req, satisfied).faulted
    requires i < |planned| && FirstOfScope(planned, i) && !Kept(s, planned[i].scope, satisfied)
    ensures NewlyHeld(cfg, s, RegisterAll(cfg, s, planned, req, satisfied), req, planned[i])
    decreases |planned|
  {
    var s1 := Register(cfg, s, planned[0], req, satisfied);
    var s' := RegisterAll(cfg, s, planned, req, satisfied);
    RegisteredFirst(cfg, s, planned, req, satisfied);
    RegisterHolds(cfg, s, planned[0], req, satisfied);
    KeptWhile(s, s1, satisfied, planned[0].scope);
    RegisterAllHolds(cfg, s1, planned[1..], req, satisfied);
    hide Register, RegisterAll, HandedOut;
    if i == 0 {
      assert Kept(s1, planned[0].scope, satisfied);
      assert SameHolder(s1, s', planned[0].scope);
      assert RunStays(s1, s', s1.nodes[planned[0].scope]);
    } else {
      FirstOfRest(planned, i);
      assert SameHolder(s, s1, planned[i].scope);
      hide Kept, AsPlanned, FirstOfScope;
      RegisterAllHoldsNew(cfg, s1, planned[1..], req, satisfied, i - 1);
      SinceEarlier(cfg, s, s1, s', req, planned[i]);
    }
  }

  lemma RegisteredFirst(cfg: Config, s: Scheduler, planned: seq<PlannedNode>, req: Request,
          satisfied: set<ComputeScope>)
    requires planned != [] && !s.faulted && !RegisterAll(cfg, s, planned, req, satisfied).faulted
    ensures var s1 := Register(cfg, s, planned[0], req, satisfied);
            !s1.faulted && RegisterAll(cfg, s, planned, req, satisfied)
                == RegisterAll(cfg, s1, planned[1..], req, satisfied)
  {
    hide Register;
  }

  lemma FirstOfRest(planned: seq<PlannedNode>, i: nat)
    requires 0 < i < |planned| && FirstOfScope(planned, i)
    ensures FirstOfScope(planned[1..], i - 1) && planned[0].scope != planned[i].scope
            && planned[1..][i - 1] == planned[i]
  {
    forall j | 0 <= j < i - 1 ensures planned[1..][j].scope != planned[1..][i - 1].scope {
      assert planned[j + 1].scope != planned[i].scope;
    }
  }

  lemma SinceEarlier(cfg: Config, s: Scheduler, s1: Scheduler, s': Scheduler, req: Request, p: PlannedNode)
    requires RunsStay(s, s1) && NewlyHeld(cfg, s1, s', req, p)
    ensures NewlyHeld(cfg, s, s', req, p)
  {
    var g := s'.nodes[p.scope];
    assert g in s.runs ==> RunStays(s, s1, g);
  }

  // --- a whole submission -------------------------------------------------------------------

  /** The scope will get a new run: it has none, or a terminal one that is not kept.  `again` is
      the scope whose terminal run the submission itself takes out first, if any. */
  ghost predicate GetsNewRun(s: Scheduler, plan: Plan, again: Option<ComputeScope>, x: ComputeScope) {
    || x !in s.nodes
    || (s.Has(x) && s.Node(x).IsTerminal() && (x !in plan.satisfied || again == Some(x)))
  }

  /** What a submission leaves of its plan. */
  ghost predicate PlanHeld(cfg: Config, s: Scheduler, s': Scheduler, req: Request, plan: Plan,
          again: Option<ComputeScope>) {
    && (forall i: nat {:trigger plan.nodes[i]} :: i < |plan.nodes| && FirstOfScope(plan.nodes, i) ==>
          if GetsNewRun(s, plan, again, plan.nodes[i].scope) then NewlyHeld(cfg, s, s', req, plan.nodes[i])
          else SameHolder(s, s', plan.nodes[i].scope))
    && (forall x {:trigger SameHolder(s, s', x)} :: Unplanned(plan.nodes, x) && x != req.scope ==> SameHolder(s, s', x))
    && (Unplanned(plan.nodes, req.scope) && (req.scope !in s.nodes || again == Some(req.scope)) ==>
         RootStandsIn(s, s', req))
  }

  /** A root that the plan left out is satisfied already: a complete node without edges. */
  ghost predicate RootStandsIn(s: Scheduler, s': Scheduler, req: Request) {
    && req.scope in s'.nodes && s'.nodes[req.scope] !in s.runs && s'.nodes[req.scope] in s'.runs
    && Placeholder(s'.Node(req.scope)) && s'.Node(req.scope).scope == req.scope
    && s'.Node(req.scope).priorityBand == req.band && s'.Node(req.scope).bundle == req.bundle
  }

  lemma HeldOnward(cfg: Config, s: Scheduler, s1: Scheduler, s': Scheduler, req: Request, p: PlannedNode)
    requires NewlyHeld(cfg, s, s1, req, p) && SameHolder(s1, s', p.scope) && RunsStay(s1, s')
    ensures NewlyHeld(cfg, s, s', req, p)
  {
    assert RunStays(s1, s', s1.nodes[p.scope]);
  }

  /** Each node of the list, and whatever is not in it, after the list was registered. */
  ghost predicate ListHeld(cfg: Config, s: Scheduler, s': Scheduler, req: Request, plan: Plan) {
    && (forall i: nat {:trigger plan.nodes[i]} :: i < |plan.nodes| && FirstOfScope(plan.nodes, i) ==>
          if GetsNewRun(s, plan, None, plan.nodes[i].scope) then NewlyHeld(cfg, s, s', req, plan.nodes[i])
          else SameHolder(s, s', plan.nodes[i].scope))
    && (forall x {:trigger SameHolder(s, s', x)} :: Unplanned(plan.nodes, x) && x != req.scope ==> SameHolder(s, s', x))
  }

  lemma RegisterAllHoldsList(cfg: Config, s: Scheduler, req: Request, plan: Plan)
    requires HandedOut(s) && !s.faulted && !RegisterAll(cfg, s, plan.nodes, req, plan.satisfied).faulted
    ensures ListHeld(cfg, s, RegisterAll(cfg, s, plan.nodes, req, plan.satisfied), req, plan)
  {
    var s1 := RegisterAll(cfg, s, plan.nodes, req, plan.satisfied);
    RegisterAllHolds(cfg, s, plan.nodes, req, plan.satisfied);
    forall i: nat | i < |plan.nodes| && FirstOfScope(plan.nodes, i)
      ensures if GetsNewRun(s, plan, None, plan.nodes[i].scope) then NewlyHeld(cfg, s, s1, req, plan.nodes[i])
              else SameHolder(s, s1, plan.nodes[i].scope)
    {
      var x := plan.nodes[i].scope;
      assert Kept(s, x, plan.satisfied) <==> !GetsNewRun(s, plan, None, x);
      if !Kept(s, x, plan.satisfied) { RegisterAllHoldsNew(cfg, s, plan.nodes, req, plan.satisfied, i); }
    }
  }

  /** The root is in the table after the list was registered, exactly if it was or was planned. */
  lemma {:induction false} FirstWith(planned: seq<PlannedNode>, x: ComputeScope, n: nat) returns (i: nat)
    requires n < |planned| && planned[n].scope == x
    ensures i <= n && planned[i].scope == x && FirstOfScope(planned, i)
    decreases n
  {
    if j: nat :| j < n && planned[j].scope == x { i := FirstWith(planned, x, j); } else { i := n; }
  }

  lemma RegisterPlanHolds(cfg: Config, s: Scheduler, req: Request, plan: Plan)
    requires HandedOut(s) && !s.faulted && !RegisterPlan(cfg, s, req, plan).faulted
    ensures PlanHeld(cfg, s, RegisterPlan(cfg, s, req, plan), req, plan, None)
  {
    var s1 := RegisterAll(cfg, s, plan.nodes, req, plan.satisfied);
    RegisterAllHolds(cfg, s, plan.nodes, req, plan.satisfied);
    RegisterAllHoldsList(cfg, s, req, plan);
    hide RegisterAll, AsPlanned, RunsStay, FirstOfScope, GetsNewRun, Register;
    if !Unplanned(plan.nodes, req.scope) {
      var n: nat :| n < |plan.nodes| && plan.nodes[n].scope == req.scope;
      var i := FirstWith(plan.nodes, req.scope, n);
      RootIsHeld(cfg, s, s1, req, plan, i);
    } else if req.scope !in s.nodes {
      assert SameHolder(s, s1, req.scope);
      PlaceholderHolds(cfg, s, s1, req, plan);
    } else {
      assert SameHolder(s, s1, req.scope);
    }
  }

  lemma RootIsHeld(cfg: Config, s: Scheduler, s1: Scheduler, req: Request, plan: Plan, i: nat)
    requires ListHeld(cfg, s, s1, req, plan) && i < |plan.nodes| && FirstOfScope(plan.nodes, i)
    requires plan.nodes[i].scope == req.scope
    ensures req.scope in s1.nodes
  {
    assert plan.nodes[i].scope == req.scope;
  }

  lemma PlaceholderHolds(cfg: Config, s: Scheduler, s1: Scheduler, req: Request, plan: Plan)
    requires ListHeld(cfg, s, s1, req, plan) && RunsStay(s, s1) && HandedOut(s1)
    requires Unplanned(plan.nodes, req.scope) && req.scope !in s1.nodes && SameHolder(s, s1, req.scope)
    ensures PlanHeld(cfg, s, PlaceholderRoot(s1, req), req, plan, None)
  {
    var root := NewRun(PlannedNode(req.scope, []), Complete, 0, req.band, req.bundle);
    var s' := PlaceholderRoot(s1, req);
    FreshHolds(s1, root);
    assert Placeholder(root) && root.scope == req.scope && root.priorityBand == req.band && root.bundle == req.bundle;
    assert s1.nextRun in s.runs ==> RunStays(s, s1, s1.nextRun);
    hide PlaceholderRoot, FreshRun, NewRun, RunsStay, HandedOut, Placeholder, GetsNewRun, FirstOfScope, AsPlanned;
    forall i: nat | i < |plan.nodes| && FirstOfScope(plan.nodes, i)
      ensures if GetsNewRun(s, plan, None, plan.nodes[i].scope) then NewlyHeld(cfg, s, s', req, plan.nodes[i])
              else SameHolder(s, s', plan.nodes[i].scope)
    {
      assert plan.nodes[i] in plan.nodes && plan.nodes[i].scope != req.scope;
      assert SameHolder(s1, s', plan.nodes[i].scope);
      if GetsNewRun(s, plan, None, plan.nodes[i].scope) { HeldOnward(cfg, s, s1, s', req, plan.nodes[i]); }
    }
    forall x | Unplanned(plan.nodes, x) && x != req.scope ensures SameHolder(s, s', x) {
      assert SameHolder(s, s1, x) && SameHolder(s1, s', x);
    }
  }

  /** Refreshing and dispatching leave what was registered. */
  lemma HeldThrough(cfg: Config, s: Scheduler, s1: Scheduler, s': Scheduler, req: Request, plan: Plan,
          again: Option<ComputeScope>)
    requires PlanHeld(cfg, s, s1, req, plan, again) && EdgesStay(s1, s')
    ensures PlanHeld(cfg, s, s', req, plan, again)
  {
    hide GetsNewRun, FirstOfScope, IsEntry;
    forall i: nat | i < |plan.nodes| && FirstOfScope(plan.nodes, i)
      ensures if GetsNewRun(s, plan, again, plan.nodes[i].scope) then NewlyHeld(cfg, s, s', req, plan.nodes[i])
              else SameHolder(s, s', plan.nodes[i].scope)
    {
      var x := plan.nodes[i].scope;
      assert x in s1.nodes && s1.nodes[x] in s1.runs ==> SameEdges(s1, s', s1.nodes[x]);
      assert SameHolder(s, s1, x) ==> SameHolder(s, s', x);
    }
    forall x | Unplanned(plan.nodes, x) && x != req.scope ensures SameHolder(s, s', x) { assert SameHolder(s, s1, x); }
    if Unplanned(plan.nodes, req.scope) && (req.scope !in s.nodes || again == Some(req.scope)) {
      assert SameEdges(s1, s', s1.nodes[req.scope]);
    }
  }

  /** The submission takes the root's terminal run out before it plans. */
  lemma HeldAgain(cfg: Config, s: Scheduler, s': Scheduler, req: Request, plan: Plan)
    requires HandedOut(s) && s.Has(req.scope) && s.Node(req.scope).IsTerminal()
    requires PlanHeld(cfg, Replace(s, req.scope), s', req, plan, None)
    ensures PlanHeld(cfg, s, s', req, plan, Some(req.scope))
  {
    var s1 := Replace(s, req.scope);
    ReplaceLeaves(s, req.scope);
    assert forall x :: GetsNewRun(s1, plan, None, x) <==> GetsNewRun(s, plan, Some(req.scope), x) by {
      forall x ensures GetsNewRun(s1, plan, None, x) <==> GetsNewRun(s, plan, Some(req.scope), x) {
        assert x != req.scope ==> SameHolder(s, s1, x);
        if x in s.nodes { assert RunStays(s, s1, s.nodes[x]); }
      }
    }
    assert s1.runs.Keys == s.runs.Keys;
    hide Replace, GetsNewRun, FirstOfScope, AsPlanned, Placeholder;
    forall i: nat | i < |plan.nodes| && FirstOfScope(plan.nodes, i)
      ensures if GetsNewRun(s, plan, Some(req.scope), plan.nodes[i].scope)
              then NewlyHeld(cfg, s, s', req, plan.nodes[i])
              else SameHolder(s, s', plan.nodes[i].scope)
    {
      var x := plan.nodes[i].scope;
      if !GetsNewRun(s, plan, Some(req.scope), x) {
        NotAgain(s, plan, req.scope);
        assert SameHolder(s, s1, x) && SameHolder(s1, s', x);
      }
    }
    forall x | Unplanned(plan.nodes, x) && x != req.scope ensures SameHolder(s, s', x) {
      assert SameHolder(s, s1, x) && SameHolder(s1, s', x);
    }
  }

  lemma NotAgain(s: Scheduler, plan: Plan, x: ComputeScope)
    requires s.Has(x) && s.Node(x).IsTerminal()
    ensures GetsNewRun(s, plan, Some(x), x)
  {}

  // --- the section that plans ---------------------------------------------------------------

  lemma FailingKeepsEdges(s: Scheduler, g: RunId, error: Failure)
    requires g in s.runs && !s.runs[g].BlocksReadinessRefresh()
    ensures EdgesStay(s, Fail(s, g, error))
  {
    hide Released;
    forall h | h in s.runs ensures SameEdges(s, Fail(s, g, error), h) {}
  }

  lemma MovingKeepsEdges(s: Scheduler, g: RunId)
    requires g in s.runs && !s.runs[g].BlocksReadinessRefresh()
    ensures EdgesStay(s, s) && EdgesStay(s, Promote(s, g)) && EdgesStay(s, Demote(s, g))
  {}

  lemma RefreshKeepsEdges(s: Scheduler, g: RunId)
    requires g in s.runs
    ensures EdgesStay(s, Refresh(s, g))
  {
    if !s.runs[g].BlocksReadinessRefresh() {
      var failed := FailedDependencyError(s, s.runs[g].dependencyScopes);
      MovingKeepsEdges(s, g);
      FailingKeepsEdges(s, g, if failed.Some? then failed.value else Failure(g, false));
      hide Promote, Demote, Fail, EdgesStay;
      assert EdgesStay(s, Refresh(s, g));
    }
  }

  lemma {:induction false} RefreshEachKeepsEdges(s: Scheduler, scopes: seq<ComputeScope>, only: Option<ComputeScope>)
    ensures EdgesStay(s, RefreshEach(s, scopes, only)) && RefreshEach(s, scopes, only).faulted == s.faulted
    decreases |scopes|
  {
    if scopes != [] {
      var chosen := s.Has(scopes[0]) && (only.Some? ==> only.value in s.Node(scopes[0]).dependencyScopes);
      var s1 := if chosen then Refresh(s, s.nodes[scopes[0]]) else s;
      assert s1.faulted == s.faulted;
      if chosen { RefreshKeepsEdges(s, s.nodes[scopes[0]]); }
      hide Refresh, EdgesStay;
      RefreshEachKeepsEdges(s1, scopes[1..], only);
      assert RefreshEach(s, scopes, only) == RefreshEach(s1, scopes[1..], only);
      if chosen { EdgesStayTransitive(s, s1, RefreshEach(s, scopes, only)); }
    }
  }

  lemma PlanSubmissionHolds(cfg: Config, s: Scheduler, req: Request, plan: Plan)
    requires HandedOut(s) && !s.faulted && !PlanSubmission(cfg, s, req, plan).faulted
    ensures PlanHeld(cfg, s, PlanSubmission(cfg, s, req, plan), req, plan, None)
  {
    var planned := RegisterPlan(cfg, s, req, plan);
    hide RegisterPlan, PlanHeld, EdgesStay, RefreshEach, HandedOut;
    RefreshEachKeepsEdges(planned, planned.order, None);
    RegisterPlanHolds(cfg, s, req, plan);
    HeldThrough(cfg, s, planned, PlanSubmission(cfg, s, req, plan), req, plan, None);
  }

  /** The scope whose terminal run the submission takes out first: the root's, if it has one. */
  ghost function TakenOut(s: Scheduler, x: ComputeScope): Option<ComputeScope> {
    if s.Has(x) && s.Node(x).IsTerminal() then Some(x) else None
  }

  lemma SubmitPrepareHolds(cfg: Config, s: Scheduler, req: Request, plan: Plan)
    requires HandedOut(s) && !s.faulted && !SubmitPrepare(cfg, s, req, plan).faulted
    requires req.scope in s.nodes ==> req.forceFresh && s.Has(req.scope) && s.Node(req.scope).IsTerminal()
    ensures PlanHeld(cfg, s, SubmitPrepare(cfg, s, req, plan), req, plan, TakenOut(s, req.scope))
  {
    if s.Has(req.scope) {
      ReplaceLeaves(s, req.scope);
      hide PlanSubmission, PlanHeld, HandedOut, Replace;
      PlanSubmissionHolds(cfg, Replace(s, req.scope), req, plan);
      HeldAgain(cfg, s, SubmitPrepare(cfg, s, req, plan), req, plan);
    } else {
      hide PlanSubmission, PlanHeld;
      PlanSubmissionHolds(cfg, s, req, plan);
    }
  }

  lemma SubmitHolds(cfg: Config, s: Scheduler, req: Request, plan: Plan, o: DispatchOracle)
    requires HandedOut(s) && !s.faulted && !Submit(cfg, s, req, plan, o).faulted
    requires req.scope in s.nodes ==> req.forceFresh && s.Has(req.scope) && s.Node(req.scope).IsTerminal()
    ensures PlanHeld(cfg, s, Submit(cfg, s, req, plan, o), req, plan, TakenOut(s, req.scope))
  {
    var s1 := SubmitPrepare(cfg, s, req, plan);
    assert !s1.faulted;
    hide SubmitPrepare, PlanHeld, Dispatch, HandedOut, EdgesStay;
    SubmitPrepareHolds(cfg, s, req, plan);
    DispatchKeepsEdges(cfg, s1, o, 0);
    HeldThrough(cfg, s, s1, Submit(cfg, s, req, plan, o), req, plan, TakenOut(s, req.scope));
  }

  /** A batch ensure takes a terminal root out whether or not the request is force-fresh. */
  lemma EnsureHolds(cfg: Config, s: Scheduler, req: Request, plan: Plan, o: DispatchOracle)
    requires HandedOut(s) && !s.faulted && !EnsureSubmit(cfg, s, req, plan, o).faulted
    requires req.scope in s.nodes ==> s.Has(req.scope) && s.Node(req.scope).IsTerminal()
    ensures PlanHeld(cfg, s, EnsureSubmit(cfg, s, req, plan, o), req, plan, TakenOut(s, req.scope))
  {
    if s.Has(req.scope) && !req.forceFresh {
      var s1 := Replace(s, req.scope);
      ReplaceLeaves(s, req.scope);
      assert TakenOut(s1, req.scope) == None;
      hide Submit, PlanHeld, HandedOut, Replace;
      SubmitHolds(cfg, s1, req, plan, o);
      HeldAgain(cfg, s, EnsureSubmit(cfg, s, req, plan, o), req, plan);
    } else {
      hide Submit, PlanHeld;
      SubmitHolds(cfg, s, req, plan, o);
    }
  }

  lemma CallbackHolds(cfg: Config, s: Scheduler, cb: Callback, plan: Plan, o: DispatchOracle)
    requires HandedOut(s) && !s.faulted && cb.ForceFresh? && !RunCallback(cfg, s, cb, plan, o).faulted
    requires cb.scope in s.nodes ==> s.Has(cb.scope) && s.Node(cb.scope).IsTerminal()
    ensures PlanHeld(cfg, s, RunCallback(cfg, s, cb, plan, o), CallbackRequest(cb), plan, TakenOut(s, cb.scope))
  {
    var req := CallbackRequest(cb);
    var s1 := SubmitPrepare(cfg, s, req, plan);
    var s2 := Consume(s1, cb);
    assert EdgesStay(s1, s2);
    assert RunCallback(cfg, s, cb, plan, o) == Dispatch(cfg, s2, o, 0);
    assert Dispatch(cfg, s2, o, 0).faulted || !s1.faulted;
    hide SubmitPrepare, PlanHeld, Dispatch, HandedOut, EdgesStay, RunCallback, Consume;
    SubmitPrepareHolds(cfg, s, req, plan);
    DispatchKeepsEdges(cfg, s2, o, 0);
    EdgesStayTransitive(s1, s2, Dispatch(cfg, s2, o, 0));
    HeldThrough(cfg, s, s1, Dispatch(cfg, s2, o, 0), req, plan, TakenOut(s, cb.scope));
  }

  // --- events -------------------------------------------------------------------------------

  /** The scope has no run, or one that is over. */
  ghost predicate Open(s: Scheduler, x: ComputeScope) { x in s.nodes ==> s.Has(x) && s.Node(x).IsTerminal() }

  /** The event submits this request, and does not find a run it would rather attach to. */
  ghost predicate PlansFor(s: Scheduler, e: Event, req: Request, plan: Plan) {
    match e
    case Submits(r, p, _) => r == req && p == plan && Open(s, req.scope) && (req.scope in s.nodes ==> req.forceFresh)
    case Ensures(r, p, _) => r == req && p == plan && Open(s, req.scope)
    case RunsCallback(ForceFresh(x, band, kind, bundle), p, _) =>
      req == Request(x, kind, band, true, bundle) && p == plan && Open(s, x)
    case _ => false
  }

  /** What a submission that plans registers: every planned scope without a run worth keeping
      is held by a new run as it was planned and requested, every other one keeps its run, and
      a root that was satisfied before it was planned gets a complete stand-in. */
  lemma SubmissionRegistersItsPlan(cfg: Config, s: Scheduler, e: Event, req: Request, plan: Plan)
    requires HandedOut(s) && !s.faulted && Possible(s, e) && PlansFor(s, e, req, plan) && !Apply(cfg, s, e).faulted
    ensures PlanHeld(cfg, s, Apply(cfg, s, e), req, plan, TakenOut(s, req.scope))
  {
    hide HandedOut, PlanHeld, Submit, EnsureSubmit, RunCallback, TakenOut;
    match e {
      case Submits(_, _, o) => SubmitHolds(cfg, s, req, plan, o);
      case Ensures(_, _, o) => EnsureHolds(cfg, s, req, plan, o);
      case RunsCallback(cb, _, o) => CallbackHolds(cfg, s, cb, plan, o);
    }
  }

  /** So a root that is hollow, complete or failed over a durable artifact that is gone, is
      replaced by a new run with the requested entry step whenever it is ensured again. */
  lemma HollowRootIsReplaced(cfg: Config, s: Scheduler, e: Event, i: nat)
    requires HandedOut(s) && !s.faulted && e.Ensures? && !Apply(cfg, s, e).faulted
    requires s.Has(e.req.scope) && s.Node(e.req.scope).IsTerminal()
    requires i < |e.plan.nodes| && e.plan.nodes[i].scope == e.req.scope && FirstOfScope(e.plan.nodes, i)
    ensures var s' := Apply(cfg, s, e);
            && s'.Has(e.req.scope) && s'.nodes[e.req.scope] !in s.runs
            && s'.Node(e.req.scope).dependencyScopes == e.plan.nodes[i].dependencyScopes
            && IsEntry(cfg.Steps(e.req.scope), e.req.stepKind, s'.Node(e.req.scope).profileStepIndex)
  {
    SubmissionRegistersItsPlan(cfg, s, e, e.req, e.plan);
    hide Apply, FirstOfScope, IsEntry;
    assert e.plan.nodes[i].scope == e.req.scope;
  }

  lemma PlannedIsHeld(cfg: Config, s: Scheduler, s': Scheduler, req: Request, plan: Plan, x: ComputeScope)
    requires PlanHeld(cfg, s, s', req, plan, TakenOut(s, req.scope)) && Open(s, req.scope)
    requires x == req.scope || x in s.nodes
    ensures x in s'.nodes
  {
    hide IsEntry, FirstOfScope, GetsNewRun;
    if !Unplanned(plan.nodes, x) {
      var n: nat :| n < |plan.nodes| && plan.nodes[n].scope == x;
      var i := FirstWith(plan.nodes, x, n);
      assert plan.nodes[i].scope == x;
      KeptIsThere(s, plan, TakenOut(s, req.scope), x);
    } else if x != req.scope {
      assert SameHolder(s, s', x);
    }
  }

  lemma KeptIsThere(s: Scheduler, plan: Plan, again: Option<ComputeScope>, x: ComputeScope)
    ensures x !in s.nodes ==> GetsNewRun(s, plan, again, x)
  {}

  /** An ensured scope has a node afterwards, and no scope loses its own. */
  lemma EnsuredIsHeld(cfg: Config, s: Scheduler, req: Request, plan: Plan, o: DispatchOracle)
    requires HandedOut(s) && !s.faulted && !EnsureSubmit(cfg, s, req, plan, o).faulted
    ensures req.scope in EnsureSubmit(cfg, s, req, plan, o).nodes
    ensures forall x :: x in s.nodes ==> x in EnsureSubmit(cfg, s, req, plan, o).nodes
  {
    var s' := EnsureSubmit(cfg, s, req, plan, o);
    if Open(s, req.scope) {
      hide EnsureSubmit, PlanHeld, TakenOut;
      EnsureHolds(cfg, s, req, plan, o);
      forall x | x == req.scope || x in s.nodes ensures x in s'.nodes { PlannedIsHeld(cfg, s, s', req, plan, x); }
    } else {
      var g := s.nodes[req.scope];
      var s1 := if req.forceFresh then ForceFreshAttach(s, g) else s;
      EdgesOfAttach(s, g);
      AttachShape(s1, g, req.band);
      hide ForceFreshAttach, Attach, EdgesStay, Dispatch;
      var t := Attach(s1, g, req.band);
      assert s' == Dispatch(cfg, t, o, 0);
      DispatchKeepsEdges(cfg, t, o, 0);
      assert s'.nodes == t.nodes by { EdgesKeepNodes(t, s'); }
    }
  }

  lemma EdgesKeepNodes(s: Scheduler, s': Scheduler)
    requires EdgesStay(s, s')
    ensures s'.nodes == s.nodes
  {}

  lemma EdgesOfAttach(s: Scheduler, g: RunId)
    requires g in s.runs
    ensures ForceFreshAttach(s, g).nodes == s.nodes && g in ForceFreshAttach(s, g).runs
  {
    var s1 := WakeParked(s, g);
    WakeKeepsNodes(s, g);
    RefreshKeepsEdges(s1, g);
    EdgesKeepNodes(s1, Refresh(s1, g));
    hide WakeParked, Refresh, AbortedBelow, EdgesStay;
  }

  lemma WakeKeepsNodes(s: Scheduler, g: RunId)
    requires g in s.runs
    ensures WakeParked(s, g).nodes == s.nodes
  {}

  /** Every scope demanded has a node. */
  ghost predicate AllHeld(demands: seq<Demand>, s: Scheduler) {
    forall d :: d in demands ==> d.req.scope in s.nodes
  }

  /** A batch that is not left by an error ensures every scope it demands. */
  lemma {:induction false} BatchIsHeld(cfg: Config, s: Scheduler, demands: seq<Demand>)
    requires Inv(cfg, s) && !s.faulted && forall d :: d in demands ==> PlanOk(cfg, d.req, d.plan)
    requires !EnsureAll(cfg, s, demands).faulted
    ensures AllHeld(demands, EnsureAll(cfg, s, demands))
    ensures forall x :: x in s.nodes ==> x in EnsureAll(cfg, s, demands).nodes
    decreases |demands|
  {
    if demands != [] {
      var d := demands[0];
      var s1 := EnsureSubmit(cfg, s, d.req, d.plan, d.oracle);
      assert !s1.faulted by { hide EnsureSubmit; }
      EnsureEventKeeps(cfg, s, d.req, d.plan, d.oracle);
      InvHandsOut(cfg, s);
      hide Inv, EnsureSubmit, PlanOk, Guarantees, HandedOut;
      EnsuredIsHeld(cfg, s, d.req, d.plan, d.oracle);
      BatchIsHeld(cfg, s1, demands[1..]);
      forall e | e in demands ensures e.req.scope in EnsureAll(cfg, s, demands).nodes {
        assert e == d || e in demands[1..];
      }
    }
  }

  lemma InvHandsOut(cfg: Config, s: Scheduler)
    requires Inv(cfg, s)
    ensures HandedOut(s)
  {}

  // --- runs ---------------------------------------------------------------------------------

  lemma RunsHandOut(cfg: Config, states: seq<Scheduler>, events: seq<Event>, i: nat)
    requires IsRun(cfg, states, events) && i < |states|
    ensures HandedOut(states[i])
  {
    EveryRunIsSafe(cfg, states, events, i);
  }

  /** In every run of the orchestrator: whatever a submission planned, whenever a step of the run
      registered for a planned node begins, then or later, every scope its plan named as a
      dependency is complete. */
  lemma StepsAwaitThePlan(cfg: Config, states: seq<Scheduler>, events: seq<Event>, i: nat, req: Request, plan: Plan,
          n: nat, j: nat)
    requires IsRun(cfg, states, events) && i <= j < |events|
    requires PlansFor(states[i], events[i], req, plan)
    requires n < |plan.nodes| && FirstOfScope(plan.nodes, n)
    requires GetsNewRun(states[i], plan, TakenOut(states[i], req.scope), plan.nodes[n].scope)
    ensures var p := plan.nodes[n];
            && p.scope in states[i + 1].nodes
            && var g := states[i + 1].nodes[p.scope];
               && g !in states[i].runs && g in states[i + 1].runs && AsPlanned(cfg, req, p, states[i + 1].runs[g])
               && (states[j + 1].Running(g) && !states[j].Running(g) ==>
                    forall d :: d in p.dependencyScopes ==> states[j + 1].CompleteAt(d))
  {
    RunStep(cfg, states, events, i + 1);
    RunsHandOut(cfg, states, events, i);
    var p := plan.nodes[n];
    hide IsRun, Apply, Possible, Disciplined, AsPlanned, HandedOut, GetsNewRun, FirstOfScope, PlansFor, TakenOut;
    SubmissionRegistersItsPlan(cfg, states[i], events[i], req, plan);
    assert NewlyHeld(cfg, states[i], states[i + 1], req, p);
    var g := states[i + 1].nodes[p.scope];
    PlannedEdges(cfg, req, p, states[i + 1].runs[g]);
    StepsAwaitEdges(cfg, states, events, i + 1, j, g);
  }

  lemma PlannedEdges(cfg: Config, req: Request, p: PlannedNode, run: NodeRun)
    requires AsPlanned(cfg, req, p, run)
    ensures run.dependencyScopes == p.dependencyScopes
  {}

  /** A step that begins finds complete whatever its run depended on at any moment before. */
  lemma StepsAwaitEdges(cfg: Config, states: seq<Scheduler>, events: seq<Event>, i: nat, j: nat, g: RunId)
    requires IsRun(cfg, states, events) && i <= j + 1 <= |events| && g in states[i].runs
    ensures states[j + 1].Running(g) && !states[j].Running(g) ==>
              forall d :: d in states[i].runs[g].dependencyScopes ==> states[j + 1].CompleteAt(d)
  {
    RunsOnlyProgress(cfg, states, events, i, j + 1, g);
    EveryRunIsSafe(cfg, states, events, j + 1);
    hide IsRun, Inv, Absorbs;
    if states[j + 1].Running(g) && !states[j].Running(g) { assert BeganSoundly(states[j + 1], g); }
  }
}
