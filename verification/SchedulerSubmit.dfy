/** Submission: attaching to a run, waking it, and planning a scope afresh. */
module SchedulerSubmit {
  import opened Prelude
  import opened Scheduler
  import opened SchedulerInvariants
  import opened SchedulerPasses

  /** The effect of a submission before its dispatch pass: it keeps runs and begins nothing. */
  ghost predicate Prepares(s: Scheduler, s': Scheduler) {
    && Absorbs(s, s') && BeginsNothing(s, s') && s'.faulted == s.faulted
    && (forall g {:trigger s'.Running(g)} :: s.Running(g) ==> s'.Running(g))
  }

  lemma PreparesTransitive(s: Scheduler, s1: Scheduler, s2: Scheduler)
    requires Prepares(s, s1) && Prepares(s1, s2)
    ensures Prepares(s, s2)
  {
  }

  lemma TouchPrepares(s: Scheduler, s': Scheduler, g: RunId)
    requires Touches(s, s', g) && BeginsNothing(s, s')
    requires s.runs[g].state.Running? ==> s'.runs[g].state.Running?
    ensures Prepares(s, s')
  {
  }

  // --- the node table -----------------------------------------------------------------------

  /** Dropping a terminal run from the table keeps the invariant, wake-ups included. */
  lemma ReplaceKeeps(cfg: Config, s: Scheduler, scope: ComputeScope)
    requires Core(cfg, s) && s.Has(scope) && s.Node(scope).IsTerminal()
    ensures Core(cfg, Replace(s, scope)) && (Wakes(s) ==> Wakes(Replace(s, scope))) && Prepares(s, Replace(s, scope))
    ensures Replace(s, scope).nodes == s.nodes - {scope} && Replace(s, scope).runs == s.runs
    ensures Replace(s, scope).callbacks == s.callbacks
  {
    CoreRun(cfg, s, s.nodes[scope]);
    var s' := Replace(s, scope);
    assert s.runs[s.nodes[scope]].waiters == [];
    assert s'.runs == s.runs;
    ReplaceTable(cfg, s, scope);
    forall g | g in s'.runs ensures RunOk(cfg, s', g) {
      assert RunOk(cfg, s, g);
      SameRunOk(cfg, s, s', g);
    }
    forall h | h in s'.handles ensures HandleOk(s', h) { assert HandleOk(s, h); }
    if Wakes(s) {
      forall g | g in s'.runs ensures WakeOk(s', g) {
        assert WakeOk(s, g);
        assert forall d :: s'.CompleteAt(d) ==> s.CompleteAt(d);
      }
    }
  }

  lemma ReplaceTable(cfg: Config, s: Scheduler, scope: ComputeScope)
    requires TableOk(s) && QueueOk(s) && s.Has(scope) && s.Node(scope).IsTerminal()
    requires s.runs[s.nodes[scope]].waiters == []
    ensures TableOk(Replace(s, scope)) && QueueOk(Replace(s, scope))
  {
    var s' := Replace(s, scope);
    assert s'.runs == s.runs;
    WithoutMembers(s.order, scope);
    WithoutMembers(s.readyQueue, scope);
    forall g | g in s'.runs && !s'.runs[g].IsTerminal() ensures Live(s', g) { assert Live(s, g); }
    forall x ensures x in s'.readyQueue <==> s'.IsReady(x) { assert x in s.readyQueue <==> s.IsReady(x); }
  }

  /** A run as registration creates it: nobody waits on it and nothing has happened to it. */
  ghost predicate Newborn(cfg: Config, run: NodeRun) {
    && (run.state.WaitingDeps? || (run.state.Complete? && run.dependencyScopes == []))
    && run.stepIndex == 0 && run.generationAtSubmit.None? && run.resultWire.None? && run.error.None?
         && run.waiters == []
    && Ranked(cfg, run.scope, run.dependencyScopes)
    && (run.state.WaitingDeps? ==> run.profileStepIndex < |cfg.Steps(run.scope)|)
  }

  lemma FreshKeepsTable(cfg: Config, s: Scheduler, run: NodeRun)
    requires TableOk(s) && QueueOk(s) && HandlesOk(s) && run.scope !in s.nodes && Newborn(cfg, run)
    ensures TableOk(FreshRun(s, run)) && QueueOk(FreshRun(s, run)) && HandlesOk(FreshRun(s, run))
  {
    var s' := FreshRun(s, run);
    assert s.nextRun !in s.runs;
    assert run.scope !in s.order;
    AppendMembers(s.order, run.scope);
    forall x | x in s'.nodes ensures s'.nodes[x] in s'.runs && s'.runs[s'.nodes[x]].scope == x {}
    forall g | g in s'.runs && !s'.runs[g].IsTerminal() ensures Live(s', g) {
      if g != s.nextRun { assert Live(s, g); }
    }
    forall x ensures x in s'.readyQueue <==> s'.IsReady(x) {
      assert x in s.readyQueue <==> s.IsReady(x);
      if s.Has(x) { assert s.nodes[x] != s.nextRun; }
    }
    forall h | h in s'.handles ensures HandleOk(s', h) { assert HandleOk(s, h); }
  }

  lemma FreshKeeps(cfg: Config, s: Scheduler, run: NodeRun)
    requires Core(cfg, s) && run.scope !in s.nodes && Newborn(cfg, run)
    ensures Core(cfg, FreshRun(s, run)) && Prepares(s, FreshRun(s, run))
  {
    var s' := FreshRun(s, run);
    var g := s.nextRun;
    assert g !in s.runs && g !in s.tasks;
    FreshKeepsTable(cfg, s, run);
    forall h | h in s'.runs ensures RunOk(cfg, s', h) {
      if h != g { FreshKeepsRun(cfg, s, run, h); }
    }
  }

  lemma FreshKeepsRun(cfg: Config, s: Scheduler, run: NodeRun, h: RunId)
    requires Core(cfg, s) && h in s.runs
    ensures RunOk(cfg, FreshRun(s, run), h)
  {
    var s' := FreshRun(s, run);
    assert RunOk(cfg, s, h);
    assert s.nextRun !in s.runs;
    if s.runs[h].state.Failed? && s.runs[h].error.value.origin != h {
      var source :| Blames(s, h, source);
      assert Blames(s', h, source);
    }
  }

  // --- planning -----------------------------------------------------------------------------

  /** A plan the scheduler may register: edges point down the graph, every planned analytic
      has a step to run, and the requested entry step exists. */
  ghost predicate PlanOk(cfg: Config, req: Request, plan: Plan) {
    forall p :: p in plan.nodes ==> PlannedOk(cfg, req, p)
  }

  ghost predicate PlannedOk(cfg: Config, req: Request, p: PlannedNode) {
    && Ranked(cfg, p.scope, p.dependencyScopes)
    && |cfg.Steps(p.scope)| > 0
    && (p.scope == req.scope ==> EntryIndex(cfg.Steps(p.scope), req.stepKind).Some?)
  }

  lemma RegisterKeeps(cfg: Config, s: Scheduler, p: PlannedNode, req: Request, satisfied: set<ComputeScope>)
    requires Core(cfg, s) && PlannedOk(cfg, req, p)
    ensures Core(cfg, Register(cfg, s, p, req, satisfied)) && Prepares(s, Register(cfg, s, p, req, satisfied))
    ensures Register(cfg, s, p, req, satisfied).callbacks == s.callbacks
  {
    var drop := s.Has(p.scope) && s.Node(p.scope).IsTerminal() && p.scope !in satisfied;
    var s1 := if drop then Replace(s, p.scope) else s;
    if drop { ReplaceKeeps(cfg, s, p.scope); }
    hide Core, Replace;
    if p.scope !in s1.nodes {
      var entry := EntryIndex(cfg.Steps(p.scope), if p.scope == req.scope then req.stepKind else None);
      var run := NewRun(p, WaitingDeps, entry.value, req.band, req.bundle);
      FreshKeeps(cfg, s1, run);
      PreparesTransitive(s, s1, FreshRun(s1, run));
      assert Register(cfg, s, p, req, satisfied) == FreshRun(s1, run);
    } else {
      assert Register(cfg, s, p, req, satisfied) == s1;
    }
    hide Register, Prepares;
  }

  lemma {:induction false} RegisterAllKeeps(cfg: Config, s: Scheduler, planned: seq<PlannedNode>, req: Request,
          satisfied: set<ComputeScope>)
    requires Core(cfg, s) && forall p :: p in planned ==> PlannedOk(cfg, req, p)
    ensures Core(cfg, RegisterAll(cfg, s, planned, req, satisfied))
            && Prepares(s, RegisterAll(cfg, s, planned, req, satisfied))
    ensures RegisterAll(cfg, s, planned, req, satisfied).callbacks == s.callbacks
    decreases |planned|
  {
    if planned != [] && !s.faulted {
      hide Core, Register;
      RegisterKeeps(cfg, s, planned[0], req, satisfied);
      var s1 := Register(cfg, s, planned[0], req, satisfied);
      RegisterAllKeeps(cfg, s1, planned[1..], req, satisfied);
      PreparesTransitive(s, s1, RegisterAll(cfg, s, planned, req, satisfied));
    }
  }

  /** Nothing waits although all its dependencies are complete. */
  ghost predicate NoneStuck(s: Scheduler) {
    forall g {:trigger s.runs[g]} :: g in s.runs && s.runs[g].state.WaitingDeps? ==> !s.DepsComplete(s.runs[g])
  }

  lemma PlanSubmissionKeeps(cfg: Config, s: Scheduler, req: Request, plan: Plan)
    requires Core(cfg, s) && PlanOk(cfg, req, plan) && !s.faulted
    ensures Inv(cfg, PlanSubmission(cfg, s, req, plan)) && Prepares(s, PlanSubmission(cfg, s, req, plan))
    ensures NoneStuck(PlanSubmission(cfg, s, req, plan))
    ensures s.callbacks <= PlanSubmission(cfg, s, req, plan).callbacks
  {
    RegisterAllKeeps(cfg, s, plan.nodes, req, plan.satisfied);
    var s1 := RegisterAll(cfg, s, plan.nodes, req, plan.satisfied);
    hide Core, RegisterAll;
    var s2 := PlaceholderRoot(s1, req);
    if req.scope !in s1.nodes {
      FreshKeeps(cfg, s1, NewRun(PlannedNode(req.scope, []), Complete, 0, req.band, req.bundle));
    }
    PreparesTransitive(s, s1, s2);
    RefreshAllWakes(cfg, s2);
    PreparesTransitive(s, s2, RefreshEach(s2, s2.order, None));
  }

  // --- attaching ----------------------------------------------------------------------------

  lemma AttachTouches(cfg: Config, s: Scheduler, g: RunId, band: PriorityBand)
    requires Core(cfg, s) && g in s.runs && !s.runs[g].IsTerminal()
    ensures Touches(s, Attach(s, g, band), g)
    ensures RunOk(cfg, Attach(s, g, band), g)
    ensures forall h :: h in Attach(s, g, band).handles && Attach(s, g, band).handles[h].run == g ==>
            HandleOk(Attach(s, g, band), h)
  {
    CoreRun(cfg, s, g);
    var s' := Attach(s, g, band);
    assert s.nextHandle !in s.handles by { assert s.nextHandle !in s.handles || HandleOk(s, s.nextHandle); }
    assert WaitersOk(s', g) by { AppendMembers(s.runs[g].waiters, s.nextHandle); }
    assert s.nextHandle in s'.runs[g].waiters;
    forall h | h in s'.handles && s'.handles[h].run == g ensures HandleOk(s', h) {
      if h != s.nextHandle { assert HandleOk(s, h); }
    }
  }

  /** The band of a run that may adopt another: a stream request makes it stream-attached, an
      interactive one lifts it out of the background, and a background one changes nothing. */
  predicate Adopts(before: PriorityBand, requested: PriorityBand, after: PriorityBand) {
    match requested
    case StreamAttached => after.StreamAttached?
    case InteractiveEnsure => if before.Background? then after.InteractiveEnsure? else after == before
    case Background => after == before
  }

  /** An attached request moves a run to its band only if that is better and the run is neither
      sealed nor terminal; a run that is going gets a new waiter; whatever else it has stays. */
  lemma AttachAdoptsTheBetterBand(s: Scheduler, g: RunId, band: PriorityBand)
    requires g in s.runs
    ensures var before, after := s.runs[g], Attach(s, g, band).runs[g];
            && (after.priorityBand == before.priorityBand || after.priorityBand == band)
            && (before.executionSealed || before.IsTerminal() ==> after.priorityBand == before.priorityBand)
            && (!before.executionSealed && !before.IsTerminal() ==>
                  && Adopts(before.priorityBand, band, after.priorityBand)
                  && after.priorityBand.Rank() <= before.priorityBand.Rank()
                       && after.priorityBand.Rank() <= band.Rank())
            && after == before.(priorityBand := after.priorityBand, waiters := after.waiters)
            && after.waiters == before.waiters + (if before.IsTerminal() then [] else [s.nextHandle])
            && (!before.IsTerminal() ==> s.nextHandle in Attach(s, g, band).handles
                                         && Attach(s, g, band).handles[s.nextHandle] == Handle(g, None))
  {}

  lemma AttachShape(s: Scheduler, g: RunId, band: PriorityBand)
    requires g in s.runs
    ensures g in Attach(s, g, band).runs && Attach(s, g, band).runs == s.runs[g := Attach(s, g, band).runs[g]]
    ensures Attach(s, g, band).nodes == s.nodes && Attach(s, g, band).readyQueue == s.readyQueue
            && Attach(s, g, band).callbacks == s.callbacks
    ensures Attach(s, g, band).runs[g].state == s.runs[g].state && Attach(s, g, band).runs[g].scope == s.runs[g].scope
    ensures Attach(s, g, band).runs[g].dependencyScopes == s.runs[g].dependencyScopes
  {
    if s.runs[g].IsTerminal() { assert s.runs == s.runs[g := s.runs[g]]; }
  }

  /** Attaching changes no state and no edge. */
  lemma AttachSame(s: Scheduler, g: RunId, band: PriorityBand)
    requires g in s.runs
    ensures var s' := Attach(s, g, band);
            && s'.nodes == s.nodes && s'.readyQueue == s.readyQueue && s'.runs.Keys == s.runs.Keys
            && (forall h :: h in s.runs ==>
                 s'.runs[h].state == s.runs[h].state && s'.runs[h].dependencyScopes == s.runs[h].dependencyScopes
                                            && s'.runs[h].scope == s.runs[h].scope)
    ensures forall x {:trigger Attach(s, g, band).IsReady(x)} :: Attach(s, g, band).IsReady(x) <==> s.IsReady(x)
    ensures forall x {:trigger Attach(s, g, band).CompleteAt(x)} :: Attach(s, g, band).CompleteAt(x) <==>
            s.CompleteAt(x)
  {
    AttachShape(s, g, band);
    hide Attach;
  }

  lemma AttachKeepsQueue(s: Scheduler, g: RunId, band: PriorityBand)
    requires QueueOk(s) && g in s.runs
    ensures QueueOk(Attach(s, g, band))
  {
    AttachSame(s, g, band);
    hide Attach;
    var s' := Attach(s, g, band);
    forall x ensures x in s'.readyQueue <==> s'.IsReady(x) { assert x in s.readyQueue <==> s.IsReady(x); }
  }

  lemma AttachKeeps(cfg: Config, s: Scheduler, g: RunId, band: PriorityBand)
    requires Core(cfg, s) && g in s.runs
    ensures Core(cfg, Attach(s, g, band)) && (Wakes(s) ==> Wakes(Attach(s, g, band))) && Prepares(s, Attach(s, g, band))
    ensures Attach(s, g, band).callbacks == s.callbacks
  {
    if !s.runs[g].IsTerminal() {
      var s' := Attach(s, g, band);
      CoreRun(cfg, s, g);
      AttachTouches(cfg, s, g, band);
      AttachKeepsQueue(s, g, band);
      hide QueueOk, HandleOk, RunOk, WakesUp;
      TouchKeepsCore(cfg, s, s', g);
      if Wakes(s) {
        AttachWakes(s, g, band);
        hide WakeOk;
        TouchKeepsWakes(cfg, s, s', g);
      }
    }
  }

  lemma AttachWakes(s: Scheduler, g: RunId, band: PriorityBand)
    requires g in s.runs && Wakes(s) && !s.runs[g].IsTerminal()
    ensures WakeOk(Attach(s, g, band), g)
  {
    AttachSame(s, g, band);
    assert WakeOk(s, g);
    assert forall d :: Attach(s, g, band).CompleteAt(d) ==> s.CompleteAt(d);
  }

  lemma WakeParkedKeeps(cfg: Config, s: Scheduler, g: RunId)
    requires Core(cfg, s) && g in s.runs
    ensures Core(cfg, WakeParked(s, g)) && (Wakes(s) ==> Wakes(WakeParked(s, g)))
    ensures Touches(s, WakeParked(s, g), g) && BeginsNothing(s, WakeParked(s, g))
    ensures !s.runs[g].state.Complete? ==> !WakeParked(s, g).runs[g].state.Complete?
  {
    var run := s.runs[g];
    if !run.state.Parked? {
      NothingTouched(s, g);
    } else {
      hide Core, Wakes, BeginsNothing, Promote, Demote, Touches;
      var woken := SetRun(s, g, run.(generationAtSubmit := None, executionSealed := false));
      if s.DepsComplete(run) { PromoteKeeps(cfg, s, woken, g); } else { DemoteToWaitingKeeps(cfg, s, woken, g); }
    }
  }

  /** More pending callbacks never hurt. */
  lemma MoreCallbacksKeep(cfg: Config, s: Scheduler, more: multiset<Callback>)
    requires Core(cfg, s)
    ensures Core(cfg, s.(callbacks := s.callbacks + more)) && (Wakes(s) ==> Wakes(s.(callbacks := s.callbacks + more)))
    ensures Prepares(s, s.(callbacks := s.callbacks + more))
  {
    var s' := s.(callbacks := s.callbacks + more);
    forall g | g in s'.runs ensures RunOk(cfg, s', g) {
      assert RunOk(cfg, s, g);
      SameRunOk(cfg, s, s', g);
    }
    assert TableOk(s') by {
      forall g | g in s'.runs && !s'.runs[g].IsTerminal() ensures Live(s', g) { assert Live(s, g); }
    }
    assert QueueOk(s') by {
      forall x ensures x in s'.readyQueue <==> s'.IsReady(x) { assert x in s.readyQueue <==> s.IsReady(x); }
    }
    forall h | h in s'.handles ensures HandleOk(s', h) { assert HandleOk(s, h); }
    if Wakes(s) {
      forall g | g in s'.runs ensures WakeOk(s', g) { MoreCallbacksWake(s, more, g); }
    }
  }

  lemma MoreCallbacksWake(s: Scheduler, more: multiset<Callback>, g: RunId)
    requires g in s.runs && Wakes(s)
    ensures WakeOk(s.(callbacks := s.callbacks + more), g)
  {
    var s' := s.(callbacks := s.callbacks + more);
    assert WakeOk(s, g);
    var run := s.runs[g];
    if run.state.WaitingDeps? && !run.awaitsExternalWake && s'.DepsComplete(run) {
      assert s.DepsComplete(run) by { forall d | d in run.dependencyScopes
             ensures s.CompleteAt(d) { assert s'.CompleteAt(d); } }
      var cb :| cb in s.callbacks && WakesUp(cb, run);
      assert cb in s'.callbacks;
    }
  }

  /** What a section that works on one run leaves alone outside it. */
  ghost predicate Frames(s: Scheduler, s': Scheduler, g: RunId) {
    && s'.nodes == s.nodes && s'.runs.Keys == s.runs.Keys && s.callbacks <= s'.callbacks
    && (forall h :: h in s.runs && h != g ==> h in s'.runs && s'.runs[h] == s.runs[h])
  }

  lemma TouchFrames(s: Scheduler, s': Scheduler, g: RunId)
    requires Touches(s, s', g)
    ensures Frames(s, s', g)
  {}

  lemma FramesTransitive(s: Scheduler, s1: Scheduler, s2: Scheduler, g: RunId)
    requires Frames(s, s1, g) && Frames(s1, s2, g)
    ensures Frames(s, s2, g)
  {}

  /** A force-fresh attach leaves its own node either moving or really blocked. */
  lemma ForceFreshAttachKeeps(cfg: Config, s: Scheduler, g: RunId)
    requires Core(cfg, s) && g in s.runs
    ensures Core(cfg, ForceFreshAttach(s, g)) && (Wakes(s) ==> Wakes(ForceFreshAttach(s, g)))
    ensures Prepares(s, ForceFreshAttach(s, g)) && Frames(s, ForceFreshAttach(s, g), g)
    ensures g in ForceFreshAttach(s, g).runs && ForceFreshAttach(s, g).runs[g].state.WaitingDeps? ==>
              !ForceFreshAttach(s, g).DepsComplete(ForceFreshAttach(s, g).runs[g])
    ensures g in ForceFreshAttach(s, g).runs && !s.runs[g].state.Complete? ==>
            !ForceFreshAttach(s, g).runs[g].state.Complete?
  {
    WakeParkedKeeps(cfg, s, g);
    var s1 := WakeParked(s, g);
    hide WakeParked, Core, Wakes;
    TouchPrepares(s, s1, g);
    TouchFrames(s, s1, g);
    hide BeginsNothing, Touches;
    if s1.runs[g].state.WaitingDeps? || s1.runs[g].state.Ready? {
      RefreshKeeps(cfg, s1, g);
      var s2 := Refresh(s1, g);
      TouchPrepares(s1, s2, g);
      TouchFrames(s1, s2, g);
      hide Refresh, Prepares, Frames;
      PreparesTransitive(s, s1, s2);
      FramesTransitive(s, s1, s2, g);
      if s2.runs[g].state.WaitingDeps? { RestartsKeep(cfg, s1, s2, g); }
      var s3 := if s2.runs[g].state.WaitingDeps? then ScheduleRestarts(s2, g) else s2;
      if s2.runs[g].state.WaitingDeps? {
        PreparesTransitive(s, s2, s3);
        FramesTransitive(s, s2, s3, g);
      }
      assert ForceFreshAttach(s, g) == s3;
      hide ForceFreshAttach, ScheduleRestarts;
    } else {
      assert ForceFreshAttach(s, g) == s1;
      hide ForceFreshAttach;
    }
  }

  lemma RestartsKeep(cfg: Config, s1: Scheduler, s2: Scheduler, g: RunId)
    requires Core(cfg, s2) && g in s1.runs && g in s2.runs && s2.runs[g].state.WaitingDeps?
    requires s2.runs[g].dependencyScopes == s1.runs[g].dependencyScopes && !s2.DepsComplete(s1.runs[g])
    ensures Core(cfg, ScheduleRestarts(s2, g)) && (Wakes(s2) ==> Wakes(ScheduleRestarts(s2, g)))
    ensures Prepares(s2, ScheduleRestarts(s2, g)) && Frames(s2, ScheduleRestarts(s2, g), g)
    ensures ScheduleRestarts(s2, g).runs == s2.runs
    ensures !ScheduleRestarts(s2, g).DepsComplete(ScheduleRestarts(s2, g).runs[g])
  {
    hide AbortedBelow, RestartRequest, Core, Wakes, Prepares;
    var more := multiset(set d | d in AbortedBelow(s2, g) && s2.Has(d) :: RestartRequest(s2, g, d));
    MoreCallbacksKeep(cfg, s2, more);
    BlockedStays(s1, s2, s2.(callbacks := s2.callbacks + more), g);
  }

  lemma BlockedStays(s1: Scheduler, s2: Scheduler, s3: Scheduler, g: RunId)
    requires g in s1.runs && g in s2.runs && s3 == s2.(callbacks := s3.callbacks)
    requires s2.runs[g].dependencyScopes == s1.runs[g].dependencyScopes && !s2.DepsComplete(s1.runs[g])
    ensures !s3.DepsComplete(s3.runs[g])
  {
    var d :| d in s1.runs[g].dependencyScopes && !s2.CompleteAt(d);
    assert !s3.CompleteAt(d);
  }
}
