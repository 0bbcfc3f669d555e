/** How far a genuine failure spreads: to every dependent, unless one was in mid-flight. */
module SchedulerCascade {
  import opened Prelude
  import opened Scheduler
  import opened SchedulerInvariants
  import opened SchedulerPasses
  import opened SchedulerSubmit
  import opened SchedulerEvents
  import opened SchedulerTheorems

  // --- the property -------------------------------------------------------------------------

  /** The run is queued, or waits without being excused from looking at its dependencies. */
  predicate Awaiting(run: NodeRun) { (run.state.WaitingDeps? && !run.awaitsExternalWake) || run.state.Ready? }

  /** Some dependency failed genuinely. */
  ghost predicate Blamed(s: Scheduler, run: NodeRun) { exists d :: d in run.dependencyScopes && s.HardFailedAt(d) }

  predicate StillGoing(s: Scheduler, d: ComputeScope) { s.Has(d) && !s.Node(d).IsTerminal() }

  /** A pending callback will re-examine the run. */
  ghost predicate Warned(s: Scheduler, run: NodeRun) { exists cb :: cb in s.callbacks && WakesUp(cb, run) }

  /** Some other dependency is still going, and will have the run re-examined when it ends. */
  ghost predicate Held(s: Scheduler, run: NodeRun) { exists d :: d in run.dependencyScopes && StillGoing(s, d) }

  ghost predicate CascadeOk(s: Scheduler, g: RunId)
    requires g in s.runs
  {
    Awaiting(s.runs[g]) && Blamed(s, s.runs[g]) ==> Warned(s, s.runs[g]) || Held(s, s.runs[g])
  }

  /** No genuine failure is overlooked. */
  ghost predicate Cascades(s: Scheduler) {
    forall g {:trigger CascadeOk(s, g)} :: g in s.runs ==> CascadeOk(s, g)
  }

  // --- sections that work on one run --------------------------------------------------------

  lemma TouchKeepsCascadeOk(s: Scheduler, s': Scheduler, g: RunId, h: RunId)
    requires Keyed(s) && Touches(s, s', g) && h in s.runs && h != g && CascadeOk(s, h)
    ensures CascadeOk(s', h)
  {
    var run := s.runs[h];
    if Awaiting(run) && Blamed(s', run) {
      var d :| d in run.dependencyScopes && s'.HardFailedAt(d);
      if !s.HardFailedAt(d) {
        assert s.nodes[d] == g;
        assert WakesUp(DependencyTerminal(d), run);
      } else if Warned(s, run) {
        var cb :| cb in s.callbacks && WakesUp(cb, run);
        assert cb in s'.callbacks;
      } else {
        var e :| e in run.dependencyScopes && StillGoing(s, e);
        if !StillGoing(s', e) {
          assert s.nodes[e] == g;
          assert WakesUp(DependencyTerminal(e), run);
        }
      }
    }
  }

  lemma TouchKeepsCascades(s: Scheduler, s': Scheduler, g: RunId)
    requires Keyed(s) && Touches(s, s', g) && Cascades(s) && CascadeOk(s', g)
    ensures Cascades(s')
  {
    forall h | h in s'.runs ensures CascadeOk(s', h) {
      if h != g { TouchKeepsCascadeOk(s, s', g, h); }
    }
  }

  lemma CoreIsKeyed(cfg: Config, s: Scheduler)
    requires Core(cfg, s)
    ensures Keyed(s)
  {}

  // --- readiness ----------------------------------------------------------------------------

  /** New genuine failures are announced by one more callback each. */
  ghost predicate Announces(s: Scheduler, s': Scheduler) {
    && s.callbacks <= s'.callbacks
    && forall d {:trigger s'.HardFailedAt(d)} :: s'.HardFailedAt(d) && !s.HardFailedAt(d) ==>
         s'.callbacks[DependencyTerminal(d)] > s.callbacks[DependencyTerminal(d)]
  }

  lemma AnnouncesTransitive(s: Scheduler, s1: Scheduler, s2: Scheduler)
    requires Announces(s, s1) && Announces(s1, s2)
    ensures Announces(s, s2)
  {
    forall d | s2.HardFailedAt(d) && !s.HardFailedAt(d)
        ensures s2.callbacks[DependencyTerminal(d)] > s.callbacks[DependencyTerminal(d)] {
      assert s1.HardFailedAt(d) || !s1.HardFailedAt(d);
    }
  }

  lemma FailAnnounces(s: Scheduler, g: RunId, error: Failure)
    requires Keyed(s) && g in s.runs && !s.runs[g].state.Failed?
    ensures Announces(s, Fail(s, g, error))
  {}

  /** A re-examined node that is left waiting or ready has no genuinely failed dependency. */
  lemma RefreshCleans(cfg: Config, s: Scheduler, g: RunId)
    requires Core(cfg, s) && g in s.runs
    ensures Announces(s, Refresh(s, g))
    ensures Refresh(s, g).runs[g].state.WaitingDeps? || Refresh(s, g).runs[g].state.Ready? ==>
            !Blamed(Refresh(s, g), Refresh(s, g).runs[g])
    ensures s.runs[g].BlocksReadinessRefresh() ==> Refresh(s, g) == s
  {
    var run := s.runs[g];
    CoreIsKeyed(cfg, s);
    hide Core, Fail, Promote, Demote;
    var failed := FailedDependencyError(s, run.dependencyScopes);
    if run.BlocksReadinessRefresh() {
      assert Refresh(s, g) == s;
    } else if failed.Some? {
      FailAnnounces(s, g, failed.value);
      assert Refresh(s, g) == Fail(s, g, failed.value);
    } else if s.DepsComplete(run) {
      if run.state.WaitingDeps? {
        MovedFates(s, g);
        StaysUnblamed(s, Promote(s, g), g);
      }
    } else {
      MovedFates(s, g);
      StaysUnblamed(s, Demote(s, g), g);
    }
  }

  /** Moving a run between waiting and ready changes nobody's failure. */
  lemma MovedFates(s: Scheduler, g: RunId)
    requires g in s.runs && !s.runs[g].IsTerminal()
    ensures var s' := Promote(s, g);
            s'.callbacks == s.callbacks && s'.runs[g].dependencyScopes == s.runs[g].dependencyScopes && forall d ::
                s'.HardFailedAt(d) ==> s.HardFailedAt(d)
    ensures var s' := Demote(s, g);
            s'.callbacks == s.callbacks && s'.runs[g].dependencyScopes == s.runs[g].dependencyScopes && forall d ::
                s'.HardFailedAt(d) ==> s.HardFailedAt(d)
  {}

  lemma StaysUnblamed(s: Scheduler, s': Scheduler, g: RunId)
    requires g in s.runs && g in s'.runs && !Blamed(s, s.runs[g])
    requires s'.callbacks == s.callbacks && s'.runs[g].dependencyScopes == s.runs[g].dependencyScopes && forall d ::
             s'.HardFailedAt(d) ==> s.HardFailedAt(d)
    ensures Announces(s, s') && !Blamed(s', s'.runs[g])
  {}

  lemma {:induction false} RefreshEachAnnounces(cfg: Config, s: Scheduler, scopes: seq<ComputeScope>,
          only: Option<ComputeScope>)
    requires Core(cfg, s)
    ensures Announces(s, RefreshEach(s, scopes, only))
    ensures forall g :: g in s.runs && s.runs[g].BlocksReadinessRefresh() ==>
            g in RefreshEach(s, scopes, only).runs && RefreshEach(s, scopes, only).runs[g] == s.runs[g]
    decreases |scopes|
  {
    if scopes != [] {
      var s1 := if Selected(s, scopes[0], only) then Refresh(s, s.nodes[scopes[0]]) else s;
      if Selected(s, scopes[0], only) {
        RefreshKeeps(cfg, s, s.nodes[scopes[0]]);
        RefreshCleans(cfg, s, s.nodes[scopes[0]]);
      }
      hide Core, Wakes, Refresh;
      RefreshEachAnnounces(cfg, s1, scopes[1..], only);
      AnnouncesTransitive(s, s1, RefreshEach(s, scopes, only));
    }
  }

  /** A genuine failure that a selected node did not see happened later in the pass. */
  ghost predicate SeenOrAnnounced(s: Scheduler, s': Scheduler, run: NodeRun) {
    forall d {:trigger s'.HardFailedAt(d)} :: d in run.dependencyScopes && s'.HardFailedAt(d) ==>
      s'.callbacks[DependencyTerminal(d)] > s.callbacks[DependencyTerminal(d)]
  }

  lemma {:induction false} RefreshEachCleans(cfg: Config, s: Scheduler, scopes: seq<ComputeScope>,
          only: Option<ComputeScope>, x: ComputeScope)
    requires Core(cfg, s) && x in scopes && Selected(s, x, only)
    ensures s.nodes[x] in RefreshEach(s, scopes, only).runs
    ensures var s' := RefreshEach(s, scopes, only); var run := s'.runs[s.nodes[x]];
            run.state.WaitingDeps? || run.state.Ready? ==> SeenOrAnnounced(s, s', run)
    decreases |scopes|
  {
    var x0, s' := scopes[0], RefreshEach(s, scopes, only);
    var s1 := if Selected(s, x0, only) then Refresh(s, s.nodes[x0]) else s;
    if Selected(s, x0, only) {
      RefreshKeeps(cfg, s, s.nodes[x0]);
      RefreshRefreshes(cfg, s, s.nodes[x0]);
      RefreshCleans(cfg, s, s.nodes[x0]);
    }
    hide Core, Wakes, Refresh;
    RefreshEachAnnounces(cfg, s1, scopes[1..], only);
    RefreshEachKeeps(cfg, s1, scopes[1..], only);
    if x in scopes[1..] {
      SelectionStays(s, s1, x, only);
      RefreshEachCleans(cfg, s1, scopes[1..], only, x);
    } else {
      assert x == x0;
      CleanedThenAnnounced(s, s1, s', s.nodes[x0]);
    }
  }

  lemma CleanedThenAnnounced(s: Scheduler, s1: Scheduler, s': Scheduler, g: RunId)
    requires s.callbacks <= s1.callbacks && Announces(s1, s') && Refreshes(s1, s') && g in s1.runs
    requires s1.runs[g].state.WaitingDeps? || s1.runs[g].state.Ready? ==> !Blamed(s1, s1.runs[g])
    requires s1.runs[g].BlocksReadinessRefresh() ==> s'.runs[g] == s1.runs[g]
    ensures s'.runs[g].state.WaitingDeps? || s'.runs[g].state.Ready? ==> SeenOrAnnounced(s, s', s'.runs[g])
  {
    var run := s'.runs[g];
    if run.state.WaitingDeps? || run.state.Ready? {
      assert run.dependencyScopes == s1.runs[g].dependencyScopes;
      forall d | d in run.dependencyScopes && s'.HardFailedAt(d)
          ensures s'.callbacks[DependencyTerminal(d)] > s.callbacks[DependencyTerminal(d)] {
        assert !s1.HardFailedAt(d);
      }
    }
  }

  lemma {:induction false} RefreshEachKeepsCascades(cfg: Config, s: Scheduler, scopes: seq<ComputeScope>,
          only: Option<ComputeScope>)
    requires Core(cfg, s) && Cascades(s)
    ensures Cascades(RefreshEach(s, scopes, only))
    decreases |scopes|
  {
    if scopes != [] {
      var s1 := if Selected(s, scopes[0], only) then Refresh(s, s.nodes[scopes[0]]) else s;
      if Selected(s, scopes[0], only) {
        var g := s.nodes[scopes[0]];
        CoreIsKeyed(cfg, s);
        RefreshKeeps(cfg, s, g);
        RefreshCleans(cfg, s, g);
        hide Refresh, Core, Wakes;
        TouchKeepsCascades(s, s1, g);
      }
      hide Core, Wakes, Refresh;
      RefreshEachKeepsCascades(cfg, s1, scopes[1..], only);
    }
  }

  /** After a pass over every node whoever has a genuinely failed dependency is to be told. */
  ghost predicate FailuresAnnounced(s: Scheduler) {
    forall g {:trigger s.runs[g]} :: g in s.runs && Awaiting(s.runs[g]) && Blamed(s, s.runs[g]) ==>
      exists d :: d in s.runs[g].dependencyScopes && DependencyTerminal(d) in s.callbacks
  }

  lemma AnnouncedCascades(s: Scheduler)
    requires FailuresAnnounced(s)
    ensures Cascades(s)
  {
    forall g | g in s.runs ensures CascadeOk(s, g) {
      if Awaiting(s.runs[g]) && Blamed(s, s.runs[g]) {
        var d :| d in s.runs[g].dependencyScopes && DependencyTerminal(d) in s.callbacks;
        assert WakesUp(DependencyTerminal(d), s.runs[g]);
      }
    }
  }

  lemma RefreshAllAnnounces(cfg: Config, s: Scheduler)
    requires Core(cfg, s)
    ensures FailuresAnnounced(RefreshEach(s, s.order, None))
  {
    var s' := RefreshEach(s, s.order, None);
    RefreshEachKeeps(cfg, s, s.order, None);
    forall g | g in s'.runs && Awaiting(s'.runs[g]) && Blamed(s', s'.runs[g])
      ensures exists d :: d in s'.runs[g].dependencyScopes && DependencyTerminal(d) in s'.callbacks
    {
      LiveIsSelected(cfg, s, s', g, None);
      RefreshEachCleans(cfg, s, s.order, None, s'.runs[g].scope);
      var d :| d in s'.runs[g].dependencyScopes && s'.HardFailedAt(d);
      assert s'.callbacks[DependencyTerminal(d)] > 0;
    }
  }

  /** A run that is not terminal is the one its scope's entry refers to, and in the pass. */
  lemma LiveIsSelected(cfg: Config, s: Scheduler, s': Scheduler, g: RunId, only: Option<ComputeScope>)
    requires Core(cfg, s) && Core(cfg, s') && Refreshes(s, s') && g in s'.runs && !s'.runs[g].IsTerminal()
    requires only.Some? ==> only.value in s'.runs[g].dependencyScopes
    ensures s'.runs[g].scope in s.order && Selected(s, s'.runs[g].scope, only) && s.nodes[s'.runs[g].scope] == g
  {
    assert Live(s', g);
    assert s.nodes[s'.runs[g].scope] == g && g in s.runs;
    assert s'.runs[g].dependencyScopes == s.runs[g].dependencyScopes;
  }

  // --- callbacks ----------------------------------------------------------------------------

  lemma DependencyTerminalCascades(cfg: Config, s: Scheduler, x: ComputeScope)
    requires Core(cfg, s) && Cascades(s) && DependencyTerminal(x) in s.callbacks
    ensures Cascades(Consume(OnDependencyTerminal(s, x), DependencyTerminal(x)))
  {
    var s1 := RefreshEach(s, s.order, Some(x));
    var s' := Consume(OnDependencyTerminal(s, x), DependencyTerminal(x));
    RefreshEachKeeps(cfg, s, s.order, Some(x));
    RefreshEachKeepsCascades(cfg, s, s.order, Some(x));
    assert s' == s1.(callbacks := s1.callbacks + multiset{DispatchReady} - multiset{DependencyTerminal(x)});
    forall g | g in s'.runs ensures CascadeOk(s', g) {
      assert CascadeOk(s1, g);
      if Awaiting(s1.runs[g]) && x in s1.runs[g].dependencyScopes {
        LiveIsSelected(cfg, s, s1, g, Some(x));
        RefreshEachCleans(cfg, s, s.order, Some(x), s1.runs[g].scope);
      }
      hide Core, Wakes, RefreshEach;
      ConsumedTerminal(s, s1, s', x, g);
    }
  }

  lemma ConsumedTerminal(s: Scheduler, s1: Scheduler, s': Scheduler, x: ComputeScope, g: RunId)
    requires g in s1.runs && CascadeOk(s1, g) && DependencyTerminal(x) in s.callbacks && s.callbacks <= s1.callbacks
    requires s' == s1.(callbacks := s1.callbacks + multiset{DispatchReady} - multiset{DependencyTerminal(x)})
    requires Awaiting(s1.runs[g]) && x in s1.runs[g].dependencyScopes ==> SeenOrAnnounced(s, s1, s1.runs[g])
    ensures CascadeOk(s', g)
  {
    var run := s1.runs[g];
    if Awaiting(run) && Blamed(s', run) {
      var d :| d in run.dependencyScopes && s'.HardFailedAt(d);
      assert s1.HardFailedAt(d);
      if x in run.dependencyScopes {
        assert s1.callbacks[DependencyTerminal(d)] > s.callbacks[DependencyTerminal(d)];
        assert DependencyTerminal(d) in s'.callbacks && WakesUp(DependencyTerminal(d), run);
      } else if Warned(s1, run) {
        var cb :| cb in s1.callbacks && WakesUp(cb, run);
        assert cb in s'.callbacks;
      } else {
        var e :| e in run.dependencyScopes && StillGoing(s1, e);
        assert StillGoing(s', e);
      }
    }
  }

  /** Callbacks that come on top take nothing away. */
  lemma MoreCallbacksCascade(s: Scheduler, more: multiset<Callback>)
    requires Cascades(s)
    ensures Cascades(s.(callbacks := s.callbacks + more))
  {
    var s' := s.(callbacks := s.callbacks + more);
    forall g | g in s'.runs ensures CascadeOk(s', g) {
      assert CascadeOk(s, g);
      SameTable(s, s', g);
    }
  }

  lemma SameTable(s: Scheduler, s': Scheduler, g: RunId)
    requires s'.runs == s.runs && s'.nodes == s.nodes && s.callbacks <= s'.callbacks && g in s.runs && CascadeOk(s, g)
    ensures CascadeOk(s', g)
  {
    var run := s.runs[g];
    if Awaiting(run) && Blamed(s', run) {
      var d :| d in run.dependencyScopes && s'.HardFailedAt(d);
      assert s.HardFailedAt(d);
      if Warned(s, run) {
        var cb :| cb in s.callbacks && WakesUp(cb, run);
        assert cb in s'.callbacks;
      } else {
        var e :| e in run.dependencyScopes && StillGoing(s, e);
        assert StillGoing(s', e);
      }
    }
  }

  // --- submissions --------------------------------------------------------------------------

  lemma ReplaceCascades(cfg: Config, s: Scheduler, scope: ComputeScope)
    requires Core(cfg, s) && Cascades(s) && s.Has(scope) && s.Node(scope).IsTerminal()
    ensures Cascades(Replace(s, scope))
  {
    var s' := Replace(s, scope);
    ReplaceKeeps(cfg, s, scope);
    forall g | g in s'.runs ensures CascadeOk(s', g) {
      assert CascadeOk(s, g);
      hide Core, Wakes, Replace, Prepares;
      if Awaiting(s.runs[g]) && Blamed(s', s.runs[g]) { FewerNodes(s, s', scope, g); }
    }
  }

  lemma FewerNodes(s: Scheduler, s': Scheduler, scope: ComputeScope, g: RunId)
    requires s.Has(scope) && s.Node(scope).IsTerminal() && s'.runs == s.runs && s'.nodes == s.nodes - {scope}
             && s'.callbacks == s.callbacks
    requires g in s.runs && CascadeOk(s, g) && Awaiting(s.runs[g]) && Blamed(s', s.runs[g])
    ensures Warned(s', s.runs[g]) || Held(s', s.runs[g])
  {
    var run := s.runs[g];
    var d :| d in run.dependencyScopes && s'.HardFailedAt(d);
    assert s.HardFailedAt(d);
    if !Warned(s, run) {
      var e :| e in run.dependencyScopes && StillGoing(s, e);
      assert StillGoing(s', e);
    }
  }

  lemma PlanSubmissionAnnounces(cfg: Config, s: Scheduler, req: Request, plan: Plan)
    requires !s.faulted && Core(cfg, s) && PlanOk(cfg, req, plan)
    ensures FailuresAnnounced(PlanSubmission(cfg, s, req, plan))
  {
    RegisterAllKeeps(cfg, s, plan.nodes, req, plan.satisfied);
    var s1 := RegisterAll(cfg, s, plan.nodes, req, plan.satisfied);
    hide Core, RegisterAll;
    var s2 := PlaceholderRoot(s1, req);
    if req.scope !in s1.nodes {
      FreshKeeps(cfg, s1, NewRun(PlannedNode(req.scope, []), Complete, 0, req.band, req.bundle));
    }
    RefreshAllAnnounces(cfg, s2);
  }

  /** A force-fresh attach re-examines its own node and leaves everybody else's warnings. */
  lemma ForceFreshAttachCascades(cfg: Config, s: Scheduler, g: RunId)
    requires Core(cfg, s) && Cascades(s) && g in s.runs
    ensures Cascades(ForceFreshAttach(s, g))
    ensures g in ForceFreshAttach(s, g).runs
    ensures Awaiting(ForceFreshAttach(s, g).runs[g]) ==> !Blamed(ForceFreshAttach(s, g), ForceFreshAttach(s, g).runs[g])
  {
    CoreIsKeyed(cfg, s);
    WakeParkedKeeps(cfg, s, g);
    var s1 := WakeParked(s, g);
    CoreIsKeyed(cfg, s1);
    hide WakeParked, Core, Wakes;
    forall h | h in s1.runs && h != g ensures CascadeOk(s1, h) { TouchKeepsCascadeOk(s, s1, g, h); }
    if s1.runs[g].state.WaitingDeps? || s1.runs[g].state.Ready? {
      var s2 := Refresh(s1, g);
      RefreshKeeps(cfg, s1, g);
      RefreshCleans(cfg, s1, g);
      hide Refresh;
      forall h | h in s2.runs ensures CascadeOk(s2, h) {
        if h != g { TouchKeepsCascadeOk(s1, s2, g, h); }
      }
      hide Touches;
      if s2.runs[g].state.WaitingDeps? {
        hide AbortedBelow, RestartRequest;
        MoreCallbacksCascade(s2, multiset(set d | d in AbortedBelow(s2, g) && s2.Has(d) :: RestartRequest(s2, g, d)));
        SameBlame(s2, ScheduleRestarts(s2, g), s2.runs[g]);
      }
    }
  }

  lemma SameBlame(s: Scheduler, s': Scheduler, run: NodeRun)
    requires s'.runs == s.runs && s'.nodes == s.nodes
    ensures Blamed(s', run) <==> Blamed(s, run)
  {
    assert forall d {:trigger s'.HardFailedAt(d)} :: s'.HardFailedAt(d) <==> s.HardFailedAt(d);
    if Blamed(s, run) {
      var d :| d in run.dependencyScopes && s.HardFailedAt(d);
      assert s'.HardFailedAt(d);
    }
  }

  lemma AttachCascades(s: Scheduler, g: RunId, band: PriorityBand)
    requires g in s.runs && Cascades(s)
    ensures Cascades(Attach(s, g, band))
    ensures forall h ::
            h in s.runs && h in Attach(s, g, band).runs && Blamed(Attach(s, g, band), Attach(s, g, band).runs[h]) ==>
            Blamed(s, s.runs[h])
  {
    var s' := Attach(s, g, band);
    AttachFates(s, g, band);
    hide Attach;
    forall h | h in s'.runs ensures CascadeOk(s', h) && (Blamed(s', s'.runs[h]) ==> Blamed(s, s.runs[h])) {
      assert CascadeOk(s, h);
      FatesKeep(s, s', h);
    }
  }

  /** Two states in which every scope has fared the same and nobody newly awaits. */
  ghost predicate SameFates(s: Scheduler, s': Scheduler) {
    && s'.callbacks == s.callbacks && s'.runs.Keys == s.runs.Keys
    && (forall d {:trigger s'.HardFailedAt(d)} :: s'.HardFailedAt(d) ==> s.HardFailedAt(d))
    && (forall d {:trigger StillGoing(s, d)} :: StillGoing(s, d) ==> StillGoing(s', d))
    && (forall h {:trigger s'.runs[h]} :: h in s.runs ==>
          s'.runs[h].dependencyScopes == s.runs[h].dependencyScopes && s'.runs[h].scope == s.runs[h].scope
              && (Awaiting(s'.runs[h]) ==> Awaiting(s.runs[h])))
  }

  lemma FatesKeep(s: Scheduler, s': Scheduler, h: RunId)
    requires SameFates(s, s') && h in s.runs && CascadeOk(s, h)
    ensures h in s'.runs && CascadeOk(s', h) && (Blamed(s', s'.runs[h]) ==> Blamed(s, s.runs[h]))
  {
    var run, run' := s.runs[h], s'.runs[h];
    if Blamed(s', run') {
      var d :| d in run'.dependencyScopes && s'.HardFailedAt(d);
      assert s.HardFailedAt(d);
      if Awaiting(run') {
        if Warned(s, run) {
          var cb :| cb in s.callbacks && WakesUp(cb, run);
          assert WakesUp(cb, run');
        } else {
          var e :| e in run.dependencyScopes && StillGoing(s, e);
          assert StillGoing(s', e);
        }
      }
    }
  }

  lemma FatesKeepCascades(s: Scheduler, s': Scheduler)
    requires SameFates(s, s') && Cascades(s)
    ensures Cascades(s')
  {
    forall h | h in s'.runs ensures CascadeOk(s', h) {
      assert CascadeOk(s, h);
      FatesKeep(s, s', h);
    }
  }

  lemma FatesTransitive(s: Scheduler, s1: Scheduler, s2: Scheduler)
    requires SameFates(s, s1) && SameFates(s1, s2)
    ensures SameFates(s, s2)
  {
    forall d | s2.HardFailedAt(d) ensures s.HardFailedAt(d) { assert s1.HardFailedAt(d); }
  }

  lemma AttachFates(s: Scheduler, g: RunId, band: PriorityBand)
    requires g in s.runs
    ensures SameFates(s, Attach(s, g, band))
  {
    AttachShape(s, g, band);
    AttachAdoptsTheBetterBand(s, g, band);
    hide Attach;
  }

  lemma SubmitPrepareCascades(cfg: Config, s: Scheduler, req: Request, plan: Plan)
    requires !s.faulted && Inv(cfg, s) && PlanOk(cfg, req, plan) && Cascades(s)
    ensures Cascades(SubmitPrepare(cfg, s, req, plan))
  {
    InvIsCoreAndWakes(cfg, s);
    hide Inv, Core, Wakes, PlanSubmission, Replace, ForceFreshAttach, Attach;
    if s.Has(req.scope) {
      var g := s.nodes[req.scope];
      if req.forceFresh && s.runs[g].IsTerminal() {
        ReplaceKeeps(cfg, s, req.scope);
        PlanSubmissionAnnounces(cfg, Replace(s, req.scope), req, plan);
        AnnouncedCascades(PlanSubmission(cfg, Replace(s, req.scope), req, plan));
      } else if req.forceFresh {
        ForceFreshAttachCascades(cfg, s, g);
        AttachCascades(ForceFreshAttach(s, g), g, req.band);
      } else {
        AttachCascades(s, g, req.band);
      }
    } else {
      PlanSubmissionAnnounces(cfg, s, req, plan);
      AnnouncedCascades(PlanSubmission(cfg, s, req, plan));
    }
  }

  /** The demand that was queued for a dependency may be forgotten once it was submitted: its
      node is going, or has ended and announced that, or everybody was re-examined. */
  lemma ForceFreshCascades(cfg: Config, s: Scheduler, cb: Callback, plan: Plan)
    requires !s.faulted && Inv(cfg, s) && cb.ForceFresh? && cb in s.callbacks
             && PlanOk(cfg, CallbackRequest(cb), plan) && Cascades(s)
    ensures Cascades(Consume(SubmitPrepare(cfg, s, CallbackRequest(cb), plan), cb))
  {
    var req := CallbackRequest(cb);
    InvIsCoreAndWakes(cfg, s);
    hide Inv, Core, Wakes, PlanSubmission, Replace, ForceFreshAttach, Attach;
    if s.Has(req.scope) && !s.Node(req.scope).IsTerminal() {
      ForceFreshAttachConsumed(cfg, s, cb, req.band);
    } else {
      var s1 := SubmitPrepare(cfg, s, req, plan);
      if s.Has(req.scope) {
        ReplaceKeeps(cfg, s, req.scope);
        PlanSubmissionAnnounces(cfg, Replace(s, req.scope), req, plan);
      } else {
        PlanSubmissionAnnounces(cfg, s, req, plan);
      }
      hide SubmitPrepare;
      AnnouncedSurvives(s1, cb);
      AnnouncedCascades(Consume(s1, cb));
    }
  }

  lemma AnnouncedSurvives(s: Scheduler, cb: Callback)
    requires FailuresAnnounced(s) && cb.ForceFresh?
    ensures FailuresAnnounced(Consume(s, cb))
  {
    var s' := Consume(s, cb);
    forall g | g in s'.runs && Awaiting(s'.runs[g]) && Blamed(s', s'.runs[g])
      ensures exists d :: d in s'.runs[g].dependencyScopes && DependencyTerminal(d) in s'.callbacks
    {
      SameBlame(s, s', s.runs[g]);
      var d :| d in s.runs[g].dependencyScopes && DependencyTerminal(d) in s.callbacks;
      assert DependencyTerminal(d) in s'.callbacks;
    }
  }

  lemma ForceFreshAttachConsumed(cfg: Config, s: Scheduler, cb: Callback, band: PriorityBand)
    requires Core(cfg, s) && Cascades(s) && cb.ForceFresh? && cb in s.callbacks && s.Has(cb.scope)
             && !s.Node(cb.scope).IsTerminal()
    ensures Cascades(Consume(Attach(ForceFreshAttach(s, s.nodes[cb.scope]), s.nodes[cb.scope], band), cb))
  {
    var root := s.nodes[cb.scope];
    CoreIsKeyed(cfg, s);
    ForceFreshAttachKeeps(cfg, s, root);
    ForceFreshAttachCascades(cfg, s, root);
    ForceFreshAttachEnds(cfg, s, root);
    var s1 := ForceFreshAttach(s, root);
    AttachFates(s1, root, band);
    FatesKeepCascades(s1, Attach(s1, root, band));
    AttachShape(s1, root, band);
    var s2 := Attach(s1, root, band);
    hide Core, Wakes, ForceFreshAttach, Attach;
    forall g | g in s2.runs ensures CascadeOk(Consume(s2, cb), g) {
      assert CascadeOk(s2, g) && CascadeOk(s1, g);
      if g == root {
        FatesKeep(s1, s2, g);
        SameBlame(s2, Consume(s2, cb), s2.runs[g]);
      } else {
        OtherStaysWarned(cfg, s, s2, cb, root, g);
      }
    }
  }

  /** When a force-fresh attach ends its own node, it announces that. */
  lemma ForceFreshAttachEnds(cfg: Config, s: Scheduler, g: RunId)
    requires Core(cfg, s) && g in s.runs && !s.runs[g].IsTerminal()
    ensures g in ForceFreshAttach(s, g).runs
    ensures ForceFreshAttach(s, g).runs[g].IsTerminal() ==>
            DependencyTerminal(s.runs[g].scope) in ForceFreshAttach(s, g).callbacks
  {
    WakeParkedKeeps(cfg, s, g);
    var s1 := WakeParked(s, g);
    hide WakeParked;
    if s1.runs[g].state.WaitingDeps? || s1.runs[g].state.Ready? {
      RefreshKeeps(cfg, s1, g);
      hide Core, Wakes, Refresh;
    }
  }

  lemma OtherStaysWarned(cfg: Config, s: Scheduler, s2: Scheduler, cb: Callback, root: RunId, g: RunId)
    requires Core(cfg, s) && cb.ForceFresh? && s.Has(cb.scope) && root == s.nodes[cb.scope]
             && !s.runs[root].IsTerminal()
    requires s2.nodes == s.nodes && root in s2.runs && g in s2.runs && g in s.runs && g != root
             && s2.runs[g] == s.runs[g] && CascadeOk(s2, g)
    requires s2.runs[root].IsTerminal() ==> DependencyTerminal(cb.scope) in s2.callbacks
    ensures CascadeOk(Consume(s2, cb), g)
  {
    var s', run := Consume(s2, cb), s2.runs[g];
    SameBlame(s2, s', run);
    if Awaiting(run) && Blamed(s2, run) {
      if Warned(s2, run) {
        var other :| other in s2.callbacks && WakesUp(other, run);
        if other != cb {
          assert other in s'.callbacks;
        } else if cb.scope in run.dependencyScopes {
          if s2.runs[root].IsTerminal() {
            assert DependencyTerminal(cb.scope) in s'.callbacks && WakesUp(DependencyTerminal(cb.scope), run);
          } else {
            assert StillGoing(s', cb.scope);
          }
        } else {
          OneLiveRunPerScope(cfg, s, root, g);
        }
      } else {
        var e :| e in run.dependencyScopes && StillGoing(s2, e);
        assert StillGoing(s', e);
      }
    }
  }

  lemma OneLiveRunPerScope(cfg: Config, s: Scheduler, root: RunId, g: RunId)
    requires Core(cfg, s) && g in s.runs && root in s.runs && s.runs[g].scope in s.nodes
             && s.nodes[s.runs[g].scope] == root && g != root
    ensures s.runs[g].IsTerminal()
  {
    assert !Live(s, g);
  }

  // --- dispatch -----------------------------------------------------------------------------

  lemma {:induction false} PickFates(s: Scheduler, admit: (ComputeScope, nat) -> bool, round: nat, budget: nat)
    requires Keyed(s)
    ensures SameFates(s, Pick(s, admit, round, budget).0) && Keyed(Pick(s, admit, round, budget).0)
    decreases budget
  {
    if budget != 0 && s.readyQueue != [] {
      var scope := s.readyQueue[0];
      var s1 := s.(readyQueue := s.readyQueue[1..]);
      var next := if !s.IsReady(scope) then s1
                  else if !s.DepsComplete(s.Node(scope))
                      then SetRun(s1, s.nodes[scope], s.Node(scope).(state := WaitingDeps, awaitsExternalWake := false))
                  else if !admit(scope, round) then s1.(readyQueue := s1.readyQueue + [scope]) else s1;
      DemotedFates(s, s1, scope);
      QueueFates(s, next.readyQueue);
      if !(s.IsReady(scope) && s.DepsComplete(s.Node(scope)) && admit(scope, round)) {
        PickFates(next, admit, round, budget - 1);
        FatesTransitive(s, next, Pick(next, admit, round, budget - 1).0);
      }
    }
  }

  lemma QueueFates(s: Scheduler, queue: seq<ComputeScope>)
    requires Keyed(s)
    ensures SameFates(s, s.(readyQueue := queue)) && Keyed(s.(readyQueue := queue))
  {}

  lemma DemotedFates(s: Scheduler, s1: Scheduler, scope: ComputeScope)
    requires Keyed(s) && s1 == s.(readyQueue := s1.readyQueue)
    ensures s.IsReady(scope) ==>
              var s2 := SetRun(s1, s.nodes[scope], s.Node(scope).(state := WaitingDeps, awaitsExternalWake := false));
              SameFates(s, s2) && Keyed(s2)
  {}

  lemma BeginFates(s: Scheduler, scope: ComputeScope, task: Task)
    requires Keyed(s) && s.IsReady(scope)
    ensures SameFates(s, Begin(s, s.nodes[scope], task)) && Keyed(Begin(s, s.nodes[scope], task))
  {}

  lemma ShortCircuitCascades(s: Scheduler, scope: ComputeScope, hydrated: Option<Wire>)
    requires Keyed(s) && Cascades(s) && s.IsReady(scope)
    ensures Cascades(ShortCircuit(s, s.nodes[scope], hydrated)) && Keyed(ShortCircuit(s, s.nodes[scope], hydrated))
  {
    var g, s' := s.nodes[scope], ShortCircuit(s, s.nodes[scope], hydrated);
    CompletedShape(s, scope, hydrated);
    hide ShortCircuit;
    forall h | h in s'.runs ensures CascadeOk(s', h) {
      assert CascadeOk(s, h);
      if h != g && Awaiting(s.runs[h]) && Blamed(s', s.runs[h]) { CompletedWarns(s, s', scope, h); }
    }
  }

  lemma CompletedShape(s: Scheduler, scope: ComputeScope, hydrated: Option<Wire>)
    requires Keyed(s) && s.IsReady(scope)
    ensures var g, s' := s.nodes[scope], ShortCircuit(s, s.nodes[scope], hydrated);
            && s'.nodes == s.nodes && g in s'.runs && s'.runs == s.runs[g := s'.runs[g]] && s'.runs[g].state.Complete?
                 && s'.runs[g].scope == scope
            && s'.callbacks == s.callbacks + multiset{DependencyTerminal(scope)}
  {}

  lemma CompletedWarns(s: Scheduler, s': Scheduler, scope: ComputeScope, h: RunId)
    requires Keyed(s) && s.IsReady(scope) && h in s.runs && h != s.nodes[scope] && CascadeOk(s, h)
             && Awaiting(s.runs[h]) && Blamed(s', s.runs[h])
    requires s'.nodes == s.nodes && s.nodes[scope] in s'.runs
             && s'.runs == s.runs[s.nodes[scope] := s'.runs[s.nodes[scope]]]
    requires s'.runs[s.nodes[scope]].state.Complete?
             && s'.callbacks == s.callbacks + multiset{DependencyTerminal(scope)}
    ensures Warned(s', s.runs[h]) || Held(s', s.runs[h])
  {
    var run := s.runs[h];
    var d :| d in run.dependencyScopes && s'.HardFailedAt(d);
    assert s.HardFailedAt(d);
    if Warned(s, run) {
      var cb :| cb in s.callbacks && WakesUp(cb, run);
      assert cb in s'.callbacks;
    } else {
      var e :| e in run.dependencyScopes && StillGoing(s, e);
      if !StillGoing(s', e) {
        assert e == scope;
        assert DependencyTerminal(scope) in s'.callbacks && WakesUp(DependencyTerminal(scope), run);
      }
    }
  }

  lemma {:induction false} DispatchCascades(cfg: Config, s: Scheduler, o: DispatchOracle, round: nat)
    requires Keyed(s) && Cascades(s)
    ensures Cascades(Dispatch(cfg, s, o, round))
    decreases |s.readyQueue|
  {
    if s.readyQueue != [] {
      var (s1, pick) := Pick(s, o.admit, round, |s.readyQueue|);
      PickFates(s, o.admit, round, |s.readyQueue|);
      FatesKeepCascades(s, s1);
      if pick.Some? {
        hide Pick, SameFates;
        var scope := pick.value;
        var g := s1.nodes[scope];
        var run := s1.runs[g];
        if |cfg.Steps(scope)| <= run.profileStepIndex {
          FaultKeeps(s1);
        } else if o.satisfied(scope, round) {
          ShortCircuitCascades(s1, scope, o.hydrated(scope, round));
          DispatchCascades(cfg, ShortCircuit(s1, g, o.hydrated(scope, round)), o, round + 1);
        } else if cfg.Steps(scope)[run.profileStepIndex].isInline {
          BegunCascades(s1, scope, InlineBuild);
          if !s1.WirelessDependency(run) { DispatchCascades(cfg, Begin(s1, g, InlineBuild), o, round + 1); }
        } else if !cfg.hasPool {
          QueueFates(s1, Enqueue(s1, scope).readyQueue);
          FatesKeepCascades(s1, Enqueue(s1, scope));
        } else {
          BegunCascades(s1, scope, PoolFlush);
        }
      }
    }
  }

  lemma FaultKeeps(s: Scheduler)
    requires Cascades(s)
    ensures Cascades(s.(faulted := true))
  {
    forall g | g in s.runs ensures CascadeOk(s.(faulted := true), g) {
      assert CascadeOk(s, g);
      SameTable(s, s.(faulted := true), g);
    }
  }

  lemma BegunCascades(s: Scheduler, scope: ComputeScope, task: Task)
    requires Keyed(s) && Cascades(s) && s.IsReady(scope)
    ensures var s' := Begin(s, s.nodes[scope], task); Keyed(s') && Cascades(s') && Cascades(s'.(faulted := true))
  {
    BeginFates(s, scope, task);
    FatesKeepCascades(s, Begin(s, s.nodes[scope], task));
    hide Begin;
    FaultKeeps(Begin(s, s.nodes[scope], task));
  }
}
