/** Each building block of a critical section keeps the invariant. */
module SchedulerSections {
  import opened Prelude
  import opened Scheduler
  import opened SchedulerInvariants

  // --- the ready queue ----------------------------------------------------------------------

  /** A node that leaves `ready` is taken out of the queue. */
  lemma DequeueKeepsQueue(s: Scheduler, s': Scheduler, g: RunId)
    requires TableOk(s) && QueueOk(s) && g in s.runs && Live(s, g)
    requires s'.runs.Keys == s.runs.Keys && s'.nodes == s.nodes
    requires forall h :: h in s.runs && h != g ==> s'.runs[h] == s.runs[h]
    requires !s'.runs[g].state.Ready?
    requires s'.readyQueue == Without(s.readyQueue, s.runs[g].scope)
    ensures QueueOk(s')
  {
    WithoutMembers(s.readyQueue, s.runs[g].scope);
    forall x ensures x in s'.readyQueue <==> s'.IsReady(x) {
      if s.Has(x) && x != s.runs[g].scope { assert s.nodes[x] != g; }
    }
  }

  /** A node that becomes `ready` is in the queue once. */
  lemma EnqueueKeepsQueue(s: Scheduler, s': Scheduler, g: RunId)
    requires TableOk(s) && QueueOk(s) && g in s.runs && Live(s, g)
    requires s'.runs.Keys == s.runs.Keys && s'.nodes == s.nodes
    requires forall h :: h in s.runs && h != g ==> s'.runs[h] == s.runs[h]
    requires s'.runs[g].state.Ready?
    requires s'.readyQueue == (if s.runs[g].scope in s.readyQueue then s.readyQueue
             else s.readyQueue + [s.runs[g].scope])
    ensures QueueOk(s')
  {
    if s.runs[g].scope !in s.readyQueue { AppendMembers(s.readyQueue, s.runs[g].scope); }
    forall x ensures x in s'.readyQueue <==> s'.IsReady(x) {
      if s.Has(x) && x != s.runs[g].scope { assert s.nodes[x] != g; }
    }
  }

  // --- edits of one live run ----------------------------------------------------------------

  /** A section has so far only rewritten fields of run `g` and its task. */
  ghost predicate Edits(s: Scheduler, s1: Scheduler, g: RunId) {
    && g in s.runs && g in s1.runs
    && s1 == s.(runs := s.runs[g := s1.runs[g]], tasks := s1.tasks)
    && OtherTasks(s, s1, g)
    && s1.runs[g].scope == s.runs[g].scope && Progresses(s.runs[g], s1.runs[g])
    && s1.runs[g].state == s.runs[g].state
    && s1.runs[g].waiters == s.runs[g].waiters
    && s1.runs[g].dependencyScopes == s.runs[g].dependencyScopes
  }

  ghost predicate Excuses(s: Scheduler, g: RunId, error: Failure)
    requires g in s.runs
  {
    || error.origin == g
    || (!error.isAbort && exists d :: d in s.runs[g].dependencyScopes && FailedWith(s, d, error))
  }

  ghost predicate FailedWith(s: Scheduler, d: ComputeScope, error: Failure) {
    s.Has(d) && s.Node(d).state.Failed? && s.Node(d).error == Some(error)
  }

  /** Waiters of other runs keep what they have. */
  lemma SettleOtherHandles(s: Scheduler, s1: Scheduler, g: RunId, state: NodeState, error: Option<Failure>)
    requires WaitersMine(s, g) && Edits(s, s1, g)
    ensures OtherHandles(s, Settle(s1, g, state, error), g)
  {
    var s' := Settle(s1, g, state, error);
    forall h | h in s.handles && s.handles[h].run != g ensures h in s'.handles && s'.handles[h] == s.handles[h] {
      assert h !in s.runs[g].waiters;
    }
  }

  ghost predicate WaitersMine(s: Scheduler, g: RunId) {
    g in s.runs && forall h :: h in s.runs[g].waiters ==> h in s.handles && s.handles[h].run == g
  }

  /** What settling makes of the run, its scope's queue entry and the callbacks. */
  lemma SettleEffect(s: Scheduler, s1: Scheduler, g: RunId, state: NodeState, error: Option<Failure>)
    requires Edits(s, s1, g)
    ensures var s' := Settle(s1, g, state, error);
            && s'.runs[g] == s1.runs[g].(state := state, error := error, awaitsExternalWake := false,
                                         waiters := if state.Parked? then s.runs[g].waiters else [])
            && s' == s.(runs := s.runs[g := s'.runs[g]], readyQueue := Without(s.readyQueue, s.runs[g].scope),
                 tasks := s1.tasks,
                        handles := s'.handles,
                        callbacks := if state.Parked? then s.callbacks
                            else s.callbacks + multiset{DependencyTerminal(s.runs[g].scope)})
  {}

  lemma SettleTouches(cfg: Config, s: Scheduler, s1: Scheduler, g: RunId, state: NodeState, error: Option<Failure>)
    requires Core(cfg, s) && Edits(s, s1, g) && !s.runs[g].IsTerminal()
    requires state.Complete? || state.Failed? || state.Parked?
    ensures Touches(s, Settle(s1, g, state, error), g)
    ensures QueueOk(Settle(s1, g, state, error))
    ensures Settle(s1, g, state, error).runs[g] ==
            s1.runs[g].(state := state, error := error, awaitsExternalWake := false,
                        waiters := if state.Parked? then s.runs[g].waiters else [])
    ensures Settle(s1, g, state, error).tasks == s1.tasks
    ensures !state.Parked? ==>
            Settle(s1, g, state, error).callbacks == s.callbacks + multiset{DependencyTerminal(s.runs[g].scope)}
  {
    CoreRun(cfg, s, g);
    assert TableOk(s) && QueueOk(s) && WaitersMine(s, g);
    hide Core, RunOk, WaitersMine, TableOk, QueueOk, OtherHandles, Live;
    SettleEffect(s, s1, g, state, error);
    SettleOtherHandles(s, s1, g, state, error);
    hide Settle;
    DequeueKeepsQueue(s, Settle(s1, g, state, error), g);
  }

  lemma SettleHandles(cfg: Config, s: Scheduler, s1: Scheduler, g: RunId, state: NodeState, error: Option<Failure>,
          h: HandleId)
    requires Core(cfg, s) && Edits(s, s1, g) && !s.runs[g].IsTerminal()
    requires state.Complete? || state.Failed? || state.Parked?
    requires h in Settle(s1, g, state, error).handles && Settle(s1, g, state, error).handles[h].run == g
    ensures HandleOk(Settle(s1, g, state, error), h)
  {
    assert h in s.handles && HandleOk(s, h);
  }

  lemma SettledRunOk(cfg: Config, s: Scheduler, s1: Scheduler, g: RunId, state: NodeState, error: Option<Failure>)
    requires Core(cfg, s) && Edits(s, s1, g) && !s.runs[g].IsTerminal()
    requires state.Complete? || state.Failed? || state.Parked?
    requires if state.Failed? then error.Some? && Excuses(s, g, error.value) else error.None?
    requires state.Complete? ==> s1.runs[g].resultWire.Some?
    requires g in s1.tasks ==> state.Failed? && !s1.tasks[g].InlineRun? && g in s.tasks && s1.tasks[g] == s.tasks[g]
    requires s1.runs[g].profileStepIndex == s.runs[g].profileStepIndex
    ensures RunOk(cfg, Settle(s1, g, state, error), g)
  {
    var s' := Settle(s1, g, state, error);
    assert RunOk(cfg, s, g);
    SettleTouches(cfg, s, s1, g, state, error);
    assert FailureOk(s', g) by {
      if state.Failed? && error.value.origin != g {
        var d :| d in s.runs[g].dependencyScopes && FailedWith(s, d, error.value);
        assert s.nodes[d] != g;
        assert Blames(s', g, s.nodes[d]);
      }
    }
  }

  /** Settling keeps the invariant, whatever the section did to the run's own fields before. */
  lemma SettleKeeps(cfg: Config, s: Scheduler, s1: Scheduler, g: RunId, state: NodeState, error: Option<Failure>)
    requires Core(cfg, s) && Edits(s, s1, g) && !s.runs[g].IsTerminal()
    requires state.Complete? || state.Failed? || state.Parked?
    requires if state.Failed? then error.Some? && Excuses(s, g, error.value) else error.None?
    requires state.Complete? ==> s1.runs[g].resultWire.Some?
    requires g in s1.tasks ==> state.Failed? && !s1.tasks[g].InlineRun? && g in s.tasks && s1.tasks[g] == s.tasks[g]
    requires s1.runs[g].profileStepIndex == s.runs[g].profileStepIndex
    ensures Core(cfg, Settle(s1, g, state, error))
    ensures Touches(s, Settle(s1, g, state, error), g)
    ensures Wakes(s) ==> Wakes(Settle(s1, g, state, error))
    ensures BeginsNothing(s, Settle(s1, g, state, error))
  {
    var s' := Settle(s1, g, state, error);
    SettleTouches(cfg, s, s1, g, state, error);
    SettledRunOk(cfg, s, s1, g, state, error);
    forall h | h in s'.handles && s'.handles[h].run == g ensures HandleOk(s', h) {
      SettleHandles(cfg, s, s1, g, state, error, h);
    }
    assert Live(s, g);
    TouchKeepsCore(cfg, s, s', g);
    if Wakes(s) { TouchKeepsWakes(cfg, s, s', g); }
  }

  /** The run becomes ready again: promotion, retry after an epoch bump, next step. */
  lemma RequeueKeeps(cfg: Config, s: Scheduler, s': Scheduler, g: RunId)
    requires Core(cfg, s) && Touches(s, s', g) && !s.runs[g].IsTerminal() && s'.handles == s.handles
    requires s'.runs[g].state.Ready? && g !in s'.tasks
    requires s'.readyQueue == (if s.runs[g].scope in s.readyQueue then s.readyQueue
             else s.readyQueue + [s.runs[g].scope])
    requires s'.runs[g].waiters == s.runs[g].waiters && s'.runs[g].error == s.runs[g].error
    requires s'.runs[g].dependencyScopes == s.runs[g].dependencyScopes
    requires s'.runs[g].profileStepIndex < |cfg.Steps(s.runs[g].scope)|
    requires s'.nextHandle == s.nextHandle
    ensures Core(cfg, s') && (Wakes(s) ==> Wakes(s')) && BeginsNothing(s, s')
  {
    assert RunOk(cfg, s, g);
    assert Live(s, g);
    EnqueueKeepsQueue(s, s', g);
    forall h | h in s'.handles && s'.handles[h].run == g ensures HandleOk(s', h) { assert HandleOk(s, h); }
    TouchKeepsCore(cfg, s, s', g);
    if Wakes(s) { TouchKeepsWakes(cfg, s, s', g); }
  }

  /** The run goes back to waiting: demotion, soft deferral, deferral onto a dependency. */
  lemma DemoteKeeps(cfg: Config, s: Scheduler, s': Scheduler, g: RunId)
    requires Core(cfg, s) && Touches(s, s', g) && !s.runs[g].IsTerminal() && s'.handles == s.handles
    requires s'.runs[g].state.WaitingDeps? && g !in s'.tasks
    requires s'.readyQueue == Without(s.readyQueue, s.runs[g].scope)
    requires s'.runs[g].waiters == s.runs[g].waiters && s'.runs[g].error == s.runs[g].error
    requires Ranked(cfg, s'.runs[g].scope, s'.runs[g].dependencyScopes)
    requires s'.runs[g].profileStepIndex == s.runs[g].profileStepIndex
    requires s'.nextHandle == s.nextHandle
    ensures Core(cfg, s') && (Wakes(s) && WakeOk(s', g) ==> Wakes(s')) && BeginsNothing(s, s')
  {
    assert RunOk(cfg, s, g);
    assert Live(s, g);
    DequeueKeepsQueue(s, s', g);
    forall h | h in s'.handles && s'.handles[h].run == g ensures HandleOk(s', h) { assert HandleOk(s, h); }
    TouchKeepsCore(cfg, s, s', g);
    if Wakes(s) && WakeOk(s', g) { TouchKeepsWakes(cfg, s, s', g); }
  }

  /** The run stays in the state it has; only its task, wire, seal or generation moves. */
  lemma StayKeeps(cfg: Config, s: Scheduler, s': Scheduler, g: RunId)
    requires Core(cfg, s) && Touches(s, s', g) && !s.runs[g].IsTerminal() && s'.handles == s.handles
    requires s'.runs[g].state == s.runs[g].state && s'.readyQueue == s.readyQueue
    requires s'.runs[g].waiters == s.runs[g].waiters && s'.runs[g].error == s.runs[g].error
    requires s'.runs[g].dependencyScopes == s.runs[g].dependencyScopes
    requires s'.runs[g].profileStepIndex == s.runs[g].profileStepIndex
    requires s'.runs[g].awaitsExternalWake == s.runs[g].awaitsExternalWake
    requires s'.nextHandle == s.nextHandle && s'.callbacks == s.callbacks
    requires TaskOk(s', g) && EpochOk(s', g)
    requires g in s'.tasks && s'.tasks[g].Defer? ==> RecoveryOk(cfg, s.runs[g].scope, s'.tasks[g].recovery)
    ensures Core(cfg, s') && (Wakes(s) ==> Wakes(s'))
  {
    assert RunOk(cfg, s, g);
    assert Live(s, g);
    assert QueueOk(s') by {
      forall x ensures x in s'.readyQueue <==> s'.IsReady(x) {}
    }
    forall h | h in s'.handles && s'.handles[h].run == g ensures HandleOk(s', h) { assert HandleOk(s, h); }
    TouchKeepsCore(cfg, s, s', g);
    if Wakes(s) {
      assert WakeOk(s, g);
      assert forall x :: s'.CompleteAt(x) ==> s.CompleteAt(x);
      TouchKeepsWakes(cfg, s, s', g);
    }
  }
}
