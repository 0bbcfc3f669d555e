/** Sections that move a running node on: step results, deferrals, persist, failures. */
module SchedulerFinish {
  import opened Prelude
  import opened Scheduler
  import opened SchedulerInvariants
  import opened SchedulerSections

  /** What such a section guarantees about run `g`. */
  ghost predicate Moves(cfg: Config, s: Scheduler, s': Scheduler, g: RunId) {
    Core(cfg, s') && (Wakes(s) ==> Wakes(s')) && Touches(s, s', g) && BeginsNothing(s, s')
  }

  /** A result the scheduler may receive: its recovery, if any, points down the graph. */
  ghost predicate ResultOk(cfg: Config, scope: ComputeScope, result: StepResult) {
    result.waitRecovery.Some? ==> RecoveryOk(cfg, scope, result.waitRecovery.value)
  }

  lemma DropTaskOthers(s: Scheduler, g: RunId)
    ensures OtherTasks(s, DropTask(s, g), g) && g !in DropTask(s, g).tasks
  {
  }

  lemma LeftoverDropped(cfg: Config, s: Scheduler, g: RunId)
    requires Core(cfg, s) && g in s.runs && !s.runs[g].state.Running?
    ensures Moves(cfg, s, DropTask(s, g), g)
  {
    CoreRun(cfg, s, g);
    var s' := DropTask(s, g);
    assert s' == s'.(runs := s.runs[g := s.runs[g]]);
    assert QueueOk(s') by {
      assert QueueOk(s);
      forall x ensures x in s'.readyQueue <==> s'.IsReady(x) { assert s'.IsReady(x) == s.IsReady(x); }
    }
    forall h | h in s'.handles && s'.handles[h].run == g ensures HandleOk(s', h) { assert HandleOk(s, h); }
    assert FailureOk(s', g) by { FailureStays(s, s', g); }
    TouchKeepsCore(cfg, s, s', g);
    if Wakes(s) {
      assert WakeOk(s, g);
      TouchKeepsWakes(cfg, s, s', g);
    }
  }

  lemma FailureStays(s: Scheduler, s': Scheduler, g: RunId)
    requires g in s.runs && FailureOk(s, g) && s'.runs == s.runs
    ensures FailureOk(s', g)
  {
    if s.runs[g].state.Failed? && s.runs[g].error.value.origin != g {
      var source :| Blames(s, g, source);
      assert Blames(s', g, source);
    }
  }

  lemma RetryKeeps(cfg: Config, s: Scheduler, g: RunId)
    requires Core(cfg, s) && g in s.runs && s.runs[g].state.Running?
    ensures Moves(cfg, s, RetryAfterEpochBump(s, g), g)
  {
    CoreRun(cfg, s, g);
    DropTaskOthers(s, g);
    hide Core, Wakes;
    RequeueKeeps(cfg, s, RetryAfterEpochBump(s, g), g);
  }

  lemma ContinueKeeps(cfg: Config, s: Scheduler, s1: Scheduler, g: RunId)
    requires Core(cfg, s) && Edits(s, s1, g) && s.runs[g].state.Running? && s1.tasks == s.tasks
    requires s1.runs[g].error == s.runs[g].error && s1.runs[g].profileStepIndex == s.runs[g].profileStepIndex
    ensures Moves(cfg, s, ContinueStep(cfg, s1, g), g)
  {
    CoreRun(cfg, s, g);
    DropTaskOthers(s1, g);
    hide Core, Wakes;
    RequeueKeeps(cfg, s, ContinueStep(cfg, s1, g), g);
  }

  lemma ParkKeeps(cfg: Config, s: Scheduler, s1: Scheduler, g: RunId)
    requires Core(cfg, s) && Edits(s, s1, g) && s.runs[g].state.Running? && s1.tasks == s.tasks
    requires s1.runs[g].profileStepIndex == s.runs[g].profileStepIndex
    ensures Moves(cfg, s, ParkStep(s1, g), g)
  {
    CoreRun(cfg, s, g);
    var reset := SetRun(s1, g, s1.runs[g].(generationAtSubmit := None, executionSealed := false));
    DropTaskOthers(reset, g);
    hide Core, Wakes, Settle, RunOk;
    SettleKeeps(cfg, s, DropTask(reset, g), g, Parked, None);
  }

  lemma CompleteKeeps(cfg: Config, s: Scheduler, s1: Scheduler, g: RunId)
    requires Core(cfg, s) && Edits(s, s1, g) && s.runs[g].state.Running? && s1.tasks == s.tasks
    requires s1.runs[g].profileStepIndex == s.runs[g].profileStepIndex && s1.runs[g].resultWire.Some?
    ensures Moves(cfg, s, CompleteRun(s1, g), g)
  {
    CoreRun(cfg, s, g);
    DropTaskOthers(s1, g);
    hide Core, Wakes, Settle, RunOk;
    SettleKeeps(cfg, s, DropTask(s1, g), g, Complete, None);
  }

  /** The run stays running with its next piece of post-lock work queued. */
  lemma QueueWorkKeeps(cfg: Config, s: Scheduler, s1: Scheduler, g: RunId, task: Task)
    requires Core(cfg, s) && Edits(s, s1, g) && s.runs[g].state.Running? && s1.tasks == s.tasks
    requires s1.runs[g].error == s.runs[g].error && s1.runs[g].profileStepIndex == s.runs[g].profileStepIndex
    requires s1.runs[g].awaitsExternalWake == s.runs[g].awaitsExternalWake
    requires Keeps(s.runs[g], s1.runs[g])
    requires EpochOk(SetTask(s1, g, task), g)
    requires task.Defer? ==> RecoveryOk(cfg, s.runs[g].scope, task.recovery)
    ensures Moves(cfg, s, SetTask(s1, g, task), g)
  {
    CoreRun(cfg, s, g);
    hide Core, Wakes;
    StayKeeps(cfg, s, SetTask(s1, g, task), g);
  }

  lemma AfterStepKeeps(cfg: Config, s: Scheduler, g: RunId, result: StepResult)
    requires Core(cfg, s) && g in s.runs && s.runs[g].state.Running?
    requires g in s.tasks && (s.tasks[g].InlineRun? || s.tasks[g].PoolWork?)
    requires ResultOk(cfg, s.runs[g].scope, result)
    ensures Moves(cfg, s, AfterStepSuccess(cfg, s, g, result), g)
  {
    hide Core, Wakes, Moves, ActOn, RetryAfterEpochBump;
    if s.Stale(s.runs[g]) {
      RetryKeeps(cfg, s, g);
    } else {
      ActKeeps(cfg, s, SetRun(s, g, Accepted(s.runs[g], result)), g, result);
    }
  }

  lemma ActKeeps(cfg: Config, s: Scheduler, s1: Scheduler, g: RunId, result: StepResult)
    requires Core(cfg, s) && g in s.runs && s.runs[g].state.Running? && !s.Stale(s.runs[g])
    requires g in s.tasks && (s.tasks[g].InlineRun? || s.tasks[g].PoolWork?)
    requires ResultOk(cfg, s.runs[g].scope, result)
    requires s1 == SetRun(s, g, Accepted(s.runs[g], result))
    ensures Moves(cfg, s, ActOn(cfg, s1, g, result), g)
  {
    CoreRun(cfg, s, g);
    assert Edits(s, s1, g) && Keeps(s.runs[g], s1.runs[g]);
    hide Core, Wakes, Moves, Settle, ContinueStep, ParkStep, CompleteRun, Edits, Keeps;
    match result.outcome
    case Continue => ContinueKeeps(cfg, s, s1, g);
    case Park => ParkKeeps(cfg, s, s1, g);
    case WaitDeps => QueueWorkKeeps(cfg, s, s1, g, if result.waitRecovery.None? then SoftWait
        else Defer(result.waitRecovery.value));
    case Persist => QueueWorkKeeps(cfg, s, s1, g, PersistQueued(result.persistThenContinue));
    case Done => CompleteKeeps(cfg, s, s1, g);
  }

  lemma DemoteSoftlyKeeps(cfg: Config, s: Scheduler, g: RunId)
    requires Core(cfg, s) && g in s.runs
    ensures Moves(cfg, s, DemoteSoftly(s, g), g)
  {
    if !s.runs[g].state.Running? {
      LeftoverDropped(cfg, s, g);
    } else {
      CoreRun(cfg, s, g);
      DropTaskOthers(s, g);
      hide Core, Wakes;
      DemoteKeeps(cfg, s, DemoteSoftly(s, g), g);
    }
  }

  lemma RecoverKeeps(cfg: Config, s: Scheduler, g: RunId, recovery: Recovery)
    requires Core(cfg, s) && g in s.runs && RecoveryOk(cfg, s.runs[g].scope, recovery)
    ensures Moves(cfg, s, RecoverOnDependency(s, g, recovery), g)
  {
    if !s.runs[g].state.Running? {
      LeftoverDropped(cfg, s, g);
    } else {
      CoreRun(cfg, s, g);
      DropTaskOthers(s, g);
      RecoverWakes(s, g, recovery);
      RecoverTouches(cfg, s, g, recovery);
      hide Core, Wakes, WakeOk, Touches, RecoverOnDependency;
      DemoteKeeps(cfg, s, RecoverOnDependency(s, g, recovery), g);
    }
  }

  /** Queueing one more callback is still within the bounds of a section. */
  lemma ScheduledTouches(s: Scheduler, s1: Scheduler, g: RunId, cb: Callback)
    requires Touches(s, s1, g)
    ensures Touches(s, Schedule(s1, cb), g)
  {}

  lemma DeferredTouches(s: Scheduler, g: RunId, deps: seq<ComputeScope>, external: bool)
    requires g in s.runs && s.runs[g].state.Running? && s.runs[g].dependencyScopes <= deps
    ensures var s1 := Deferred(s, g, deps, external);
            && Touches(s, s1, g) && s1.handles == s.handles && s1.nextHandle == s.nextHandle && g !in s1.tasks
            && s1.readyQueue == Without(s.readyQueue, s.runs[g].scope)
            && s1.runs[g] == s.runs[g].(generationAtSubmit := None, executionSealed := false, error := None,
                 state := WaitingDeps,
                                        dependencyScopes := deps, awaitsExternalWake := external)
  {
    DropTaskOthers(s, g);
  }

  lemma GraftRanked(cfg: Config, scope: ComputeScope, deps: seq<ComputeScope>, recovery: Recovery)
    requires Ranked(cfg, scope, deps) && RecoveryOk(cfg, scope, recovery)
    ensures recovery.dependencyScope != scope ==> Ranked(cfg, scope, deps + [recovery.dependencyScope])
  {}

  lemma RecoverTouches(cfg: Config, s: Scheduler, g: RunId, recovery: Recovery)
    requires g in s.runs && s.runs[g].state.Running?
    requires Ranked(cfg, s.runs[g].scope, s.runs[g].dependencyScopes) && RecoveryOk(cfg, s.runs[g].scope, recovery)
    ensures var s' := RecoverOnDependency(s, g, recovery);
            && Touches(s, s', g) && s'.handles == s.handles && s'.nextHandle == s.nextHandle
            && s'.runs[g].state.WaitingDeps? && g !in s'.tasks
            && s'.readyQueue == Without(s.readyQueue, s.runs[g].scope)
            && s'.runs[g].waiters == s.runs[g].waiters && s'.runs[g].error.None?
            && Ranked(cfg, s'.runs[g].scope, s'.runs[g].dependencyScopes)
            && s'.runs[g].profileStepIndex == s.runs[g].profileStepIndex
  {
    var run, dep := s.runs[g], recovery.dependencyScope;
    GraftRanked(cfg, run.scope, run.dependencyScopes, recovery);
    var deps := if dep != run.scope && dep !in run.dependencyScopes then run.dependencyScopes + [dep]
        else run.dependencyScopes;
    var demand := ForceFresh(dep, run.priorityBand, recovery.stepKind, run.bundle);
    var s1 := Deferred(s, g, deps, !recovery.forceFresh);
    assert RecoverOnDependency(s, g, recovery) == if recovery.forceFresh then Schedule(s1, demand) else s1;
    hide Touches, Ranked, RecoveryOk, Deferred, RecoverOnDependency;
    DeferredTouches(s, g, deps, !recovery.forceFresh);
    ScheduledTouches(s, s1, g, demand);
  }

  /** A deferral either awaits an external wake or has queued one. */
  lemma RecoverWakes(s: Scheduler, g: RunId, recovery: Recovery)
    requires g in s.runs && s.runs[g].state.Running?
    ensures WakeOk(RecoverOnDependency(s, g, recovery), g)
  {
    var s' := RecoverOnDependency(s, g, recovery);
    var run := s.runs[g];
    if recovery.forceFresh {
      var cb := ForceFresh(recovery.dependencyScope, run.priorityBand, recovery.stepKind, run.bundle);
      assert cb in s'.callbacks && WakesUp(cb, s'.runs[g]);
    }
  }

  lemma PersistCheckKeeps(cfg: Config, s: Scheduler, g: RunId)
    requires Core(cfg, s) && g in s.runs && g in s.tasks && s.tasks[g].PersistQueued?
    ensures Moves(cfg, s, PersistCheck(s, g), g)
  {
    CoreRun(cfg, s, g);
    hide Core, Wakes, Moves, RetryAfterEpochBump;
    if !s.runs[g].state.Running? {
      LeftoverDropped(cfg, s, g);
    } else if s.Stale(s.runs[g]) {
      RetryKeeps(cfg, s, g);
    } else {
      assert SetRun(s, g, s.runs[g]) == s;
      QueueWorkKeeps(cfg, s, s, g, PersistCalling(s.tasks[g].thenContinue));
    }
  }

  lemma PersistFinishKeeps(cfg: Config, s: Scheduler, g: RunId)
    requires Core(cfg, s) && g in s.runs && g in s.tasks && s.tasks[g].PersistReturned?
    ensures Moves(cfg, s, PersistFinish(cfg, s, g), g)
  {
    CoreRun(cfg, s, g);
    hide Core, Wakes, Moves, RetryAfterEpochBump, ContinueStep, CompleteRun;
    assert SetRun(s, g, s.runs[g]) == s;
    if !s.runs[g].state.Running? {
      LeftoverDropped(cfg, s, g);
    } else if s.Stale(s.runs[g]) {
      RetryKeeps(cfg, s, g);
    } else if s.tasks[g].thenContinue {
      ContinueKeeps(cfg, s, s, g);
    } else {
      CompleteKeeps(cfg, s, s, g);
    }
  }

  lemma PersistWriteKeeps(cfg: Config, s: Scheduler, g: RunId)
    requires Core(cfg, s) && g in s.runs && g in s.tasks && s.tasks[g].PersistCalling?
    ensures Moves(cfg, s, PersistWrite(s, g), g)
  {
    CoreRun(cfg, s, g);
    var s' := PersistWrite(s, g);
    assert s' == s'.(runs := s.runs[g := s.runs[g]]);
    assert QueueOk(s') by {
      assert QueueOk(s);
      forall x ensures x in s'.readyQueue <==> s'.IsReady(x) { assert s'.IsReady(x) == s.IsReady(x); }
    }
    forall h | h in s'.handles && s'.handles[h].run == g ensures HandleOk(s', h) { assert HandleOk(s, h); }
    assert FailureOk(s', g) by { FailureStays(s, s', g); }
    TouchKeepsCore(cfg, s, s', g);
    if Wakes(s) {
      assert WakeOk(s, g);
      TouchKeepsWakes(cfg, s, s', g);
    }
  }

  /** A step, build, hand-off or persist that raises fails its run with its own error. */
  lemma RaiseKeeps(cfg: Config, s: Scheduler, g: RunId, isAbort: bool)
    requires Core(cfg, s) && g in s.runs && (s.runs[g].state.Running? || s.runs[g].state.Failed?)
    ensures Moves(cfg, s, RaiseIn(s, g, Failure(g, isAbort)), g)
  {
    if s.runs[g].state.Failed? {
      LeftoverDropped(cfg, s, g);
    } else {
      DropTaskOthers(s, g);
      hide Core, Wakes, Settle, RunOk;
      assert DropTask(s, g).runs == s.runs[g := s.runs[g]];
      SettleKeeps(cfg, s, DropTask(s, g), g, Failed, Some(Failure(g, isAbort)));
    }
  }

  lemma AbortKeeps(cfg: Config, s: Scheduler, g: RunId, isAbort: bool)
    requires Core(cfg, s) && g in s.runs && !s.runs[g].IsTerminal()
    requires g in s.tasks ==> !s.tasks[g].InlineRun?
    ensures Moves(cfg, s, Fail(s, g, Failure(g, isAbort)), g)
  {
    hide Core, Wakes, Settle, RunOk;
    assert s.runs == s.runs[g := s.runs[g]];
    SettleKeeps(cfg, s, s, g, Failed, Some(Failure(g, isAbort)));
  }

  lemma SealKeeps(cfg: Config, s: Scheduler, g: RunId, task: Task)
    requires Core(cfg, s) && g in s.runs && s.runs[g].state.Running? && g in s.tasks
    requires (s.tasks[g].InlineBuild? && task.InlineRun?) || (s.tasks[g].PoolFlush? && task.PoolWork?)
    ensures Moves(cfg, s, SetTask(SetRun(s, g, s.runs[g].(executionSealed := true)), g, task), g)
  {
    CoreRun(cfg, s, g);
    hide Core, Wakes, Moves;
    QueueWorkKeeps(cfg, s, SetRun(s, g, s.runs[g].(executionSealed := true)), g, task);
  }
}
