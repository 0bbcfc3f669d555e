/**
What holds of the scheduler at every release of its lock, and the frame lemma by which one
critical section at a time is shown to keep it.
*/
module SchedulerInvariants {
  import opened Prelude
  import opened Scheduler

  // --- the invariant ------------------------------------------------------------------------

  /** The run is the one its scope's node table entry refers to. */
  ghost predicate Live(s: Scheduler, g: RunId) {
    g in s.runs && s.runs[g].scope in s.nodes && s.nodes[s.runs[g].scope] == g
  }

  ghost predicate TableOk(s: Scheduler) {
    && (forall g :: g in s.runs ==> g < s.nextRun)
    && (forall x :: x in s.nodes ==> s.nodes[x] in s.runs && s.runs[s.nodes[x]].scope == x)
    && NoDup(s.order) && (forall x {:trigger x in s.order} :: x in s.order <==> x in s.nodes)
    && (forall g {:trigger Live(s, g)} :: g in s.runs && !s.runs[g].IsTerminal() ==> Live(s, g))
    && (forall g :: g in s.tasks ==> g in s.runs)
  }

  /** The ready queue holds exactly the ready nodes, each once. */
  ghost predicate QueueOk(s: Scheduler) {
    NoDup(s.readyQueue) && forall x {:trigger x in s.readyQueue} :: x in s.readyQueue <==> s.IsReady(x)
  }

  /** A waiter is still listed on a run that is going, or holds the run's terminal error. */
  ghost predicate HandleOk(s: Scheduler, h: HandleId)
    requires h in s.handles
  {
    && h < s.nextHandle
    && s.handles[h].run in s.runs
    && var run := s.runs[s.handles[h].run];
       if run.IsTerminal() then s.handles[h].error == run.error
       else h in run.waiters && s.handles[h].error.None?
  }

  ghost predicate HandlesOk(s: Scheduler) {
    forall h {:trigger HandleOk(s, h)} :: h in s.handles ==> HandleOk(s, h)
  }

  ghost predicate WaitersOk(s: Scheduler, g: RunId)
    requires g in s.runs
  {
    && NoDup(s.runs[g].waiters)
    && (forall h :: h in s.runs[g].waiters ==> h in s.handles && s.handles[h].run == g)
    && (s.runs[g].IsTerminal() ==> s.runs[g].waiters == [])
  }

  ghost predicate Ranked(cfg: Config, scope: ComputeScope, deps: seq<ComputeScope>) {
    forall d :: d in deps ==> cfg.rank(d) < cfg.rank(scope)
  }

  /** A running node has exactly one thing that will move it on, and only an aborted run may
      have left-over work. */
  ghost predicate TaskOk(s: Scheduler, g: RunId)
    requires g in s.runs
  {
    && (s.runs[g].state.Running? ==> g in s.tasks)
    && (g in s.tasks ==> s.runs[g].state.Running? || (s.runs[g].state.Failed? && !s.tasks[g].InlineRun?))
  }

  /** A dependency a run may be deferred onto: itself, or one below it. */
  ghost predicate RecoveryOk(cfg: Config, scope: ComputeScope, recovery: Recovery) {
    recovery.dependencyScope == scope || cfg.rank(recovery.dependencyScope) < cfg.rank(scope)
  }

  /** In-flight work carries the generation it began under, and a persist that has returned
      under the current generation still has its artifact. */
  ghost predicate EpochOk(s: Scheduler, g: RunId)
    requires g in s.runs
  {
    var run := s.runs[g];
    run.state.Running? && g in s.tasks && !s.tasks[g].SoftWait? && !s.tasks[g].Defer? ==>
      && run.generationAtSubmit.Some?
      && run.generationAtSubmit.value <= s.Epoch(run.scope)
      && (s.tasks[g].PersistReturned? && run.generationAtSubmit.value == s.Epoch(run.scope) ==> run.scope in s.durable)
      && (s.tasks[g].PersistQueued? || s.tasks[g].PersistCalling? || s.tasks[g].PersistReturned? ==>
           run.resultWire.Some?)
  }

  /** Registered as complete without ever running: the stand-in for a satisfied root. */
  ghost predicate Placeholder(run: NodeRun) {
    && run.state.Complete? && run.resultWire.None? && run.dependencyScopes == []
    && run.stepIndex == 0 && run.generationAtSubmit.None?
  }

  /** Where a failure comes from: the run itself, or a failed dependency that was not merely
      aborted. */
  ghost predicate Blames(s: Scheduler, g: RunId, source: RunId) {
    && g in s.runs && source in s.runs
    && s.runs[source].state.Failed?
    && s.runs[source].error == s.runs[g].error
    && s.runs[source].scope in s.runs[g].dependencyScopes
  }

  ghost predicate FailureOk(s: Scheduler, g: RunId)
    requires g in s.runs
  {
    var run := s.runs[g];
    if run.state.Failed? then
      && run.error.Some?
      && (run.error.value.origin == g || (!run.error.value.isAbort && exists source :: Blames(s, g, source)))
    else run.error.None?
  }

  ghost predicate RunOk(cfg: Config, s: Scheduler, g: RunId)
    requires g in s.runs
  {
    && Ranked(cfg, s.runs[g].scope, s.runs[g].dependencyScopes)
    && (!s.runs[g].IsTerminal() ==> s.runs[g].profileStepIndex < |cfg.Steps(s.runs[g].scope)|)
    && (s.runs[g].state.Complete? && s.runs[g].resultWire.None? ==> Placeholder(s.runs[g]))
    && (g in s.tasks && s.tasks[g].Defer? ==> RecoveryOk(cfg, s.runs[g].scope, s.tasks[g].recovery))
    && WaitersOk(s, g) && TaskOk(s, g) && EpochOk(s, g) && FailureOk(s, g)
  }

  ghost predicate Core(cfg: Config, s: Scheduler) {
    TableOk(s) && QueueOk(s) && HandlesOk(s) && forall g {:trigger RunOk(cfg, s, g)} :: g in s.runs ==> RunOk(cfg, s, g)
  }

  /** Running the callback re-examines the run. */
  ghost predicate WakesUp(cb: Callback, run: NodeRun) {
    match cb
    case DispatchReady => false
    case DependencyTerminal(x) => x in run.dependencyScopes
    case ForceFresh(x, _, _, _) => x in run.dependencyScopes || x == run.scope
  }

  /** No wake-up is lost: a waiting node whose dependencies are all complete has a callback
      pending that will notice. */
  ghost predicate WakeOk(s: Scheduler, g: RunId)
    requires g in s.runs
  {
    var run := s.runs[g];
    run.state.WaitingDeps? && !run.awaitsExternalWake && s.DepsComplete(run) ==>
      exists cb :: cb in s.callbacks && WakesUp(cb, run)
  }

  ghost predicate Wakes(s: Scheduler) {
    forall g {:trigger WakeOk(s, g)} :: g in s.runs ==> WakeOk(s, g)
  }

  ghost predicate Inv(cfg: Config, s: Scheduler) { Core(cfg, s) && Wakes(s) }

  /** The parts of the invariant that concern one run. */
  lemma CoreRun(cfg: Config, s: Scheduler, g: RunId)
    requires Core(cfg, s) && g in s.runs
    ensures RunOk(cfg, s, g)
    ensures !s.runs[g].IsTerminal() ==> Live(s, g)
  {
    assert Live(s, g) || s.runs[g].IsTerminal();
  }

  // --- changing one run ---------------------------------------------------------------------

  ghost predicate OtherTasks(s: Scheduler, s': Scheduler, g: RunId) {
    forall h :: h != g ==> (h in s'.tasks <==> h in s.tasks) && (h in s.tasks ==> s'.tasks[h] == s.tasks[h])
  }

  ghost predicate OtherHandles(s: Scheduler, s': Scheduler, g: RunId) {
    && (forall h :: h in s.handles && s.handles[h].run != g ==> h in s'.handles && s'.handles[h] == s.handles[h])
    && (forall h :: h in s'.handles && s'.handles[h].run != g ==> h in s.handles && s.handles[h] == s'.handles[h])
  }

  /** A run never goes back: its priority does not get worse, its step counters do not fall, its
      edges are only extended and it keeps its bundle. */
  ghost predicate Progresses(before: NodeRun, after: NodeRun) {
    && after.priorityBand.Rank() <= before.priorityBand.Rank()
    && before.stepIndex <= after.stepIndex && before.profileStepIndex <= after.profileStepIndex
    && before.dependencyScopes <= after.dependencyScopes
    && after.bundle == before.bundle
  }

  /** What planning gave the run, and how far it has come. */
  predicate SamePlan(before: NodeRun, after: NodeRun) {
    && after.scope == before.scope && after.dependencyScopes == before.dependencyScopes
    && after.profileStepIndex == before.profileStepIndex && after.stepIndex == before.stepIndex
    && after.priorityBand == before.priorityBand && after.bundle == before.bundle
  }

  /** Everything a section that works on run `g` leaves alone. */
  ghost predicate Touches(s: Scheduler, s': Scheduler, g: RunId) {
    && g in s.runs && g in s'.runs
    && s' == s.(runs := s.runs[g := s'.runs[g]], readyQueue := s'.readyQueue, callbacks := s'.callbacks,
         tasks := s'.tasks,
                handles := s'.handles, nextHandle := s'.nextHandle, durable := s'.durable)
    && s.callbacks <= s'.callbacks && s.nextHandle <= s'.nextHandle && s.durable <= s'.durable
    && OtherTasks(s, s', g) && OtherHandles(s, s', g)
    && s'.runs[g].scope == s.runs[g].scope && Progresses(s.runs[g], s'.runs[g])
    && (s.runs[g].IsTerminal() ==> s'.runs[g] == s.runs[g])
    && (s'.runs[g].IsTerminal() && !s.runs[g].IsTerminal() ==> DependencyTerminal(s.runs[g].scope) in s'.callbacks)
  }

  lemma TouchKeepsRunOk(cfg: Config, s: Scheduler, s': Scheduler, g: RunId, h: RunId)
    requires Core(cfg, s) && Touches(s, s', g) && h in s.runs && h != g
    ensures RunOk(cfg, s', h)
  {
    assert RunOk(cfg, s, h);
    if s.runs[h].state.Failed? && s.runs[h].error.value.origin != h {
      var source :| Blames(s, h, source);
      assert Blames(s', h, source);
    }
  }

  lemma TouchKeepsCore(cfg: Config, s: Scheduler, s': Scheduler, g: RunId)
    requires Core(cfg, s) && Touches(s, s', g)
    requires QueueOk(s') && RunOk(cfg, s', g)
    requires forall h :: h in s'.handles && s'.handles[h].run == g ==> HandleOk(s', h)
    requires !s'.runs[g].IsTerminal() ==> Live(s', g)
    ensures Core(cfg, s')
  {
    TouchKeepsTable(s, s', g);
    TouchKeepsHandles(s, s', g);
    forall h | h in s'.runs ensures RunOk(cfg, s', h) {
      if h != g { TouchKeepsRunOk(cfg, s, s', g, h); }
    }
  }

  lemma TouchKeepsTable(s: Scheduler, s': Scheduler, g: RunId)
    requires TableOk(s) && Touches(s, s', g)
    requires !s'.runs[g].IsTerminal() ==> Live(s', g)
    requires g in s'.tasks ==> g in s'.runs
    ensures TableOk(s')
  {
    forall h | h in s'.runs && !s'.runs[h].IsTerminal() ensures Live(s', h) {
      if h != g { assert Live(s, h); }
    }
  }

  lemma TouchKeepsHandles(s: Scheduler, s': Scheduler, g: RunId)
    requires HandlesOk(s) && Touches(s, s', g)
    requires forall h :: h in s'.handles && s'.handles[h].run == g ==> HandleOk(s', h)
    ensures HandlesOk(s')
  {
    forall h | h in s'.handles ensures HandleOk(s', h) {
      if s'.handles[h].run != g { assert HandleOk(s, h); }
    }
  }

  lemma TouchKeepsWakes(cfg: Config, s: Scheduler, s': Scheduler, g: RunId)
    requires Core(cfg, s) && Wakes(s) && Touches(s, s', g) && WakeOk(s', g)
    ensures Wakes(s')
  {
    forall h | h in s'.runs ensures WakeOk(s', h) {
      if h != g { TouchKeepsWakeOk(cfg, s, s', g, h); }
    }
  }

  lemma TouchKeepsWakeOk(cfg: Config, s: Scheduler, s': Scheduler, g: RunId, h: RunId)
    requires Core(cfg, s) && Touches(s, s', g) && h in s.runs && h != g && WakeOk(s, h)
    ensures WakeOk(s', h)
  {
    var run := s.runs[h];
    if run.state.WaitingDeps? && !run.awaitsExternalWake && s'.DepsComplete(run) {
      if s.DepsComplete(run) {
        var cb :| cb in s.callbacks && WakesUp(cb, run);
        assert cb in s'.callbacks;
      } else {
        var d :| d in run.dependencyScopes && !s.CompleteAt(d);
        assert s'.CompleteAt(d);
        assert s'.nodes[d] == g;
        assert WakesUp(DependencyTerminal(d), run);
      }
    }
  }

  // --- two-state facts ----------------------------------------------------------------------

  /** Runs only accumulate and progress, and a terminal run never changes again. */
  ghost predicate Absorbs(s: Scheduler, s': Scheduler) {
    forall g :: g in s.runs ==>
      && g in s'.runs && s'.runs[g].scope == s.runs[g].scope && Progresses(s.runs[g], s'.runs[g])
      && (s.runs[g].IsTerminal() ==> s'.runs[g] == s.runs[g])
  }

  /** The captured generation of a running step is never changed, only cleared. */
  ghost predicate Keeps(before: NodeRun, after: NodeRun) {
    after.generationAtSubmit == before.generationAtSubmit || after.generationAtSubmit.None?
  }

  /** No step begins: what runs afterwards ran before, under the same generation. */
  ghost predicate BeginsNothing(s: Scheduler, s': Scheduler) {
    && s'.epochs == s.epochs
    && (forall g {:trigger s'.Running(g)} :: s'.Running(g) ==> s.Running(g) && Keeps(s.runs[g], s'.runs[g]))
  }

  /** The run began its step in this section: every dependency is complete and the current
      generation of its scope was captured. */
  ghost predicate BeganSoundly(s': Scheduler, g: RunId)
    requires g in s'.runs
  {
    && s'.DepsComplete(s'.runs[g])
    && s'.runs[g].generationAtSubmit == Some(s'.Epoch(s'.runs[g].scope))
  }

  /** A dispatch pass: running steps go on, complete nodes stay complete, begun steps are sound. */
  ghost predicate Dispatches(s: Scheduler, s': Scheduler) {
    && s'.epochs == s.epochs && s'.nodes == s.nodes
    && (forall x {:trigger s'.CompleteAt(x)} :: s.CompleteAt(x) ==> s'.CompleteAt(x))
    && (forall g :: s.Running(g) ==> s'.Running(g) && s'.runs[g] == s.runs[g])
    && (forall g :: s'.Running(g) && !s.Running(g) ==> BeganSoundly(s', g))
  }

  lemma DispatchesTransitive(s: Scheduler, s1: Scheduler, s2: Scheduler)
    requires Dispatches(s, s1) && Dispatches(s1, s2)
    ensures Dispatches(s, s2)
  {
    forall g | s2.Running(g) && !s.Running(g) ensures BeganSoundly(s2, g) {
      if s1.Running(g) { assert BeganSoundly(s1, g); }
    }
  }
}
