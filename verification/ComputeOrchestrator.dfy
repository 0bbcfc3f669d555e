/**
The orchestrator in the form of its source: an object whose methods, each running under the
lock, update its node table, ready queue and callback list step by step.  Every method is
proved to have exactly the effect its counterpart in `Scheduler` describes.

Node runs are kept in the field `runs` under their execution generation, which stands for the
identity of the node object: the node table and the callbacks refer to runs by identity, so a
callback that outlives a replacement still works on the run it captured.
*/
module ComputeOrchestrator {
  import opened Prelude
  import opened Scheduler
  import opened RestartWalk
  import SchedulerInvariants
  import SchedulerSubmit
  import SchedulerEvents
  import SchedulerPlans
  import SchedulerWires

  class Orchestrator {
    const cfg: Config
    var runs: map<RunId, NodeRun>
    var nodes: map<ComputeScope, RunId>
    var order: seq<ComputeScope>
    var readyQueue: seq<ComputeScope>
    var callbacks: seq<Callback>
    var tasks: map<RunId, Task>
    var handles: map<HandleId, Handle>
    var nextRun: RunId
    var nextHandle: HandleId
    var epochs: map<ComputeScope, int>
    var durable: set<ComputeScope>
    var faulted: bool

    ghost function View(): Scheduler
      reads this
    {
      Scheduler(runs, nodes, order, readyQueue, multiset(callbacks), tasks, handles, nextRun, nextHandle, epochs,
          durable, faulted)
    }

    constructor (cfg: Config)
      ensures View() == INITIAL && this.cfg == cfg
    {
      this.cfg := cfg;
      runs, nodes, order, readyQueue, callbacks, tasks, handles := map[], map[], [], [], [], map[], map[];
      nextRun, nextHandle, epochs, durable, faulted := 0, 0, map[], {}, false;
    }

    // --- small steps ------------------------------------------------------------------------

    method EnqueueReady(scope: ComputeScope)
      modifies this`readyQueue
      ensures View() == Enqueue(old(View()), scope)
    {
      if scope !in readyQueue { readyQueue := readyQueue + [scope]; }
    }

    /** `deque.remove`: the first occurrence goes, and an absent scope is ignored. */
    method DequeueReady(scope: ComputeScope)
      modifies this`readyQueue
      ensures View() == Dequeue(old(View()), scope)
    {
      var i := 0;
      while i < |readyQueue| && readyQueue[i] != scope
        invariant 0 <= i <= |readyQueue| && scope !in readyQueue[..i]
      {
        i := i + 1;
      }
      if i < |readyQueue| {
        WithoutAt(readyQueue, scope, i);
        readyQueue := readyQueue[..i] + readyQueue[i + 1..];
      }
    }

    method SchedulePostLock(cb: Callback)
      modifies this`callbacks
      ensures View() == Schedule(old(View()), cb)
    {
      callbacks := callbacks + [cb];
    }

    /** Give every waiter the outcome it waited for. */
    method ReleaseWaiters(waiters: seq<HandleId>, error: Option<Failure>)
      modifies this`handles
      ensures handles == Released(old(handles), waiters, error)
    {
      var i := 0;
      while i < |waiters|
        invariant 0 <= i <= |waiters|
        invariant handles == Released(old(handles), waiters[..i], error)
      {
        var h := waiters[i];
        assert waiters[..i + 1] == waiters[..i] + [h];
        if h in handles { handles := handles[h := handles[h].(error := error)]; }
        i := i + 1;
      }
      assert waiters[..i] == waiters;
    }

    /** Leave active dispatch; only a terminal outcome releases waiters and tells dependents. */
    method SettleNode(g: RunId, state: NodeState, error: Option<Failure>)
      requires g in runs
      modifies this
      ensures View() == Settle(old(View()), g, state, error)
    {
      var run := runs[g];
      runs := runs[g := run.(state := state, error := error, awaitsExternalWake := false)];
      DequeueReady(run.scope);
      if !state.Parked? {
        ReleaseWaiters(run.waiters, error);
        runs := runs[g := runs[g].(waiters := [])];
        SchedulePostLock(DependencyTerminal(run.scope));
      }
    }

    method FailNode(g: RunId, error: Failure)
      requires g in runs
      modifies this
      ensures View() == Fail(old(View()), g, error)
    {
      if !runs[g].state.Failed? { SettleNode(g, Failed, Some(error)); }
    }

    // --- readiness --------------------------------------------------------------------------

    method FindFailedDependency(g: RunId) returns (error: Option<Failure>)
      requires g in runs
      ensures error == FailedDependencyError(View(), runs[g].dependencyScopes)
    {
      var deps := runs[g].dependencyScopes;
      var i := 0;
      while i < |deps|
        invariant 0 <= i <= |deps|
        invariant FailedDependencyError(View(), deps) == FailedDependencyError(View(), deps[i..])
      {
        assert deps[i..][1..] == deps[i + 1..];
        if deps[i] in nodes && nodes[deps[i]] in runs {
          var dependency := runs[nodes[deps[i]]];
          if dependency.state.Failed? && dependency.error.Some?
              && !dependency.error.value.isAbort { return dependency.error; }
        }
        i := i + 1;
      }
      return None;
    }

    method CheckDepsComplete(g: RunId) returns (complete: bool)
      requires g in runs
      ensures complete <==> View().DepsComplete(runs[g])
    {
      var deps := runs[g].dependencyScopes;
      var i := 0;
      while i < |deps|
        invariant 0 <= i <= |deps|
        invariant forall k :: 0 <= k < i ==> View().CompleteAt(deps[k])
      {
        if deps[i] !in nodes || nodes[deps[i]] !in runs || !runs[nodes[deps[i]]].state.Complete? {
          assert deps[i] in deps && !View().CompleteAt(deps[i]);
          return false;
        }
        i := i + 1;
      }
      return true;
    }

    method RefreshNodeReadiness(g: RunId)
      requires g in runs
      modifies this
      ensures View() == Refresh(old(View()), g)
    {
      if runs[g].BlocksReadinessRefresh() { return; }
      var failed := FindFailedDependency(g);
      if failed.Some? {
        FailNode(g, failed.value);
        return;
      }
      var complete := CheckDepsComplete(g);
      if complete {
        if !runs[g].state.Ready? {
          runs := runs[g := runs[g].(state := Ready, awaitsExternalWake := false)];
          EnqueueReady(runs[g].scope);
        }
      } else {
        runs := runs[g := runs[g].(state := WaitingDeps, awaitsExternalWake := false)];
        DequeueReady(runs[g].scope);
      }
    }

    /** Iterate over the node table in its insertion order, which the pass does not change. */
    method RefreshReadiness(only: Option<ComputeScope>)
      modifies this
      ensures View() == RefreshEach(old(View()), old(order), only)
    {
      var scopes := order;
      var i := 0;
      while i < |scopes|
        invariant 0 <= i <= |scopes|
        invariant RefreshEach(View(), scopes[i..], only) == RefreshEach(old(View()), scopes, only)
      {
        var x := scopes[i];
        assert scopes[i..][1..] == scopes[i + 1..];
        if x in nodes && nodes[x] in runs && (only.Some? ==> only.value in runs[nodes[x]].dependencyScopes) {
          RefreshNodeReadiness(nodes[x]);
        }
        i := i + 1;
      }
    }

    method HandleDependencyTerminal(completed: ComputeScope)
      modifies this
      ensures View() == OnDependencyTerminal(old(View()), completed)
    {
      RefreshReadiness(Some(completed));
      SchedulePostLock(DispatchReady);
    }

    // --- dispatch ---------------------------------------------------------------------------

    /** Sweep the ready queue once for a node that may begin; gated nodes rotate to the back. */
    method DequeueDispatchableReadyNode(admit: (ComputeScope, nat) -> bool, round: nat)
            returns (pick: Option<ComputeScope>)
      modifies this
      ensures (View(), pick) == Pick(old(View()), admit, round, |old(readyQueue)|)
    {
      var budget: nat := |readyQueue|;
      while budget > 0 && readyQueue != []
        invariant Pick(View(), admit, round, budget) == Pick(old(View()), admit, round, |old(readyQueue)|)
        decreases budget
      {
        var scope := readyQueue[0];
        readyQueue := readyQueue[1..];
        budget := budget - 1;
        if scope in nodes && nodes[scope] in runs && runs[nodes[scope]].state.Ready? {
          var g := nodes[scope];
          var complete := CheckDepsComplete(g);
          if !complete {
            runs := runs[g := runs[g].(state := WaitingDeps, awaitsExternalWake := false)];
          } else if !admit(scope, round) {
            readyQueue := readyQueue + [scope];
          } else {
            return Some(scope);
          }
        }
      }
      assert Pick(View(), admit, round, budget) == (View(), None);
      return None;
    }

    method BeginStepExecution(g: RunId, task: Task)
      requires g in runs
      modifies this
      ensures View() == Begin(old(View()), g, task)
    {
      var scope := runs[g].scope;
      var epoch := if scope in epochs then epochs[scope] else 0;
      runs := runs[g := runs[g].(state := Running, executionSealed := false, generationAtSubmit := Some(epoch))];
      tasks := tasks[g := task];
    }

    method CompleteSatisfied(g: RunId, hydrated: Option<Wire>)
      requires g in runs
      modifies this
      ensures View() == ShortCircuit(old(View()), g, hydrated)
    {
      if runs[g].resultWire.None? {
        runs := runs[g := runs[g].(resultWire := if hydrated.None? then Some(EmptyWire) else hydrated)];
      }
      assert runs == old(runs)[g := runs[g]];
      SettleNode(g, Complete, None);
    }

    /** Reading the dependency wires fails on a dependency without one. */
    method SnapshotFails(g: RunId) returns (fails: bool)
      requires g in runs
      ensures fails <==> View().WirelessDependency(runs[g])
    {
      var deps := runs[g].dependencyScopes;
      var i := 0;
      while i < |deps|
        invariant 0 <= i <= |deps|
        invariant forall k :: 0 <= k < i ==> View().Has(deps[k]) && View().Node(deps[k]).resultWire.Some?
      {
        if deps[i] !in nodes || nodes[deps[i]] !in runs || runs[nodes[deps[i]]].resultWire.None? {
          ghost var s, d := View(), deps[i];
          assert d in s.runs[g].dependencyScopes && (!s.Has(d) || s.Node(d).resultWire.None?);
          return true;
        }
        i := i + 1;
      }
      return false;
    }

    /** Begin every ready inline node and at most one pool node. */
    method DispatchPass(o: DispatchOracle)
      modifies this
      ensures View() == Dispatch(cfg, old(View()), o, 0)
    {
      var round := 0;
      while readyQueue != [] && !faulted
        invariant Dispatch(cfg, View(), o, round) == Dispatch(cfg, old(View()), o, 0)
        decreases |readyQueue|
      {
        ghost var before := View();
        var pick := DequeueDispatchableReadyNode(o.admit, round);
        if pick.None? { return; }
        ghost var chosen := View();
        var scope := pick.value;
        var g := nodes[scope];
        var steps := cfg.Steps(scope);
        if |steps| <= runs[g].profileStepIndex {
          faulted := true;
          return;
        }
        var fails := SnapshotFails(g);
        if o.satisfied(scope, round) {
          CompleteSatisfied(g, o.hydrated(scope, round));
        } else if steps[runs[g].profileStepIndex].isInline {
          BeginStepExecution(g, InlineBuild);
          if fails {
            faulted := true;
            return;
          }
        } else if !cfg.hasPool {
          EnqueueReady(scope);
          return;
        } else {
          BeginStepExecution(g, PoolFlush);
          faulted := faulted || fails;
          return;
        }
        assert |readyQueue| <= |chosen.readyQueue| < |before.readyQueue|;
        round := round + 1;
      }
    }

    // --- after a step -----------------------------------------------------------------------

    function IsStale(run: NodeRun): bool
      reads this
    {
      run.generationAtSubmit.Some? && (if run.scope in epochs then epochs[run.scope]
          else 0) != run.generationAtSubmit.value
    }

    method RetryStepAfterEpochBump(g: RunId)
      requires g in runs
      modifies this
      ensures View() == RetryAfterEpochBump(old(View()), g)
    {
      tasks := tasks - {g};
      runs := runs[g := runs[g].(generationAtSubmit := None, executionSealed := false, state := Ready,
          awaitsExternalWake := false)];
      EnqueueReady(runs[g].scope);
      SchedulePostLock(DispatchReady);
    }

    method ContinueNodeStep(g: RunId)
      requires g in runs
      modifies this
      ensures View() == ContinueStep(cfg, old(View()), g)
    {
      var run := runs[g];
      var steps := cfg.Steps(run.scope);
      var next := run.profileStepIndex + 1;
      var index := if next < |steps| && steps[next].stepKind != steps[run.profileStepIndex].stepKind then next
          else run.profileStepIndex;
      var moved := run.(stepIndex := run.stepIndex + 1, profileStepIndex := index, state := Ready,
          executionSealed := false, awaitsExternalWake := false);
      tasks := tasks - {g};
      runs := runs[g := moved];
      assert View() == SetRun(DropTask(old(View()), g), g, moved);
      hide Enqueue, Schedule, SetRun, DropTask;
      EnqueueReady(run.scope);
      SchedulePostLock(DispatchReady);
    }

    method ParkNodeStep(g: RunId)
      requires g in runs
      modifies this
      ensures View() == ParkStep(old(View()), g)
    {
      if !runs[g].state.Running? { return; }
      runs := runs[g := runs[g].(generationAtSubmit := None, executionSealed := false)];
      tasks := tasks - {g};
      SettleNode(g, Parked, None);
    }

    /** Act on a step that returned normally. */
    method OnStepSuccess(g: RunId, result: StepResult)
      requires g in runs
      modifies this
      ensures View() == AfterStepSuccess(cfg, old(View()), g, result)
      ensures g in runs
      ensures if SchedulerWires.Current(old(View()), old(runs[g]))
                then SchedulerWires.LeavesWire(old(runs[g]).resultWire, result, runs[g].resultWire)
              else runs[g].resultWire == old(runs[g]).resultWire
    {
      SchedulerWires.StepLeavesWire(cfg, View(), g, result);
      hide RetryAfterEpochBump, ActOn, SchedulerWires.LeavesWire, SchedulerWires.Current;
      if IsStale(runs[g]) {
        RetryStepAfterEpochBump(g);
        return;
      }
      var run := runs[g];
      if !result.outcome.Persist? { run := run.(generationAtSubmit := None); }
      if result.payload.Some? {
        run := run.(resultWire := result.payload);
      } else if run.resultWire.None? && (result.outcome.Persist? || result.outcome.Done?) {
        run := run.(resultWire := Some(EmptyWire));
      }
      assert run == Accepted(runs[g], result);
      hide Accepted, WireOr;
      runs := runs[g := run];
      ActOnOutcome(g, result);
    }

    method ActOnOutcome(g: RunId, result: StepResult)
      requires g in runs
      modifies this
      ensures View() == ActOn(cfg, old(View()), g, result)
    {
      hide ContinueStep, ParkStep, Settle;
      match result.outcome {
        case Continue => ContinueNodeStep(g);
        case Park => ParkNodeStep(g);
        case WaitDeps => tasks := tasks[g := if result.waitRecovery.None? then SoftWait
            else Defer(result.waitRecovery.value)];
        case Persist => tasks := tasks[g := PersistQueued(result.persistThenContinue)];
        case Done =>
          tasks := tasks - {g};
          SettleNode(g, Complete, None);
      }
    }

    method DemoteToWaitingDeps(g: RunId)
      requires g in runs
      modifies this
      ensures View() == DemoteSoftly(old(View()), g)
    {
      tasks := tasks - {g};
      if !runs[g].state.Running? { return; }
      runs := runs[g := runs[g].(generationAtSubmit := None, executionSealed := false, error := None,
          state := WaitingDeps, awaitsExternalWake := true)];
      DequeueReady(runs[g].scope);
    }

    method RecoverAfterPersistDeferred(g: RunId, recovery: Recovery)
      requires g in runs
      modifies this
      ensures View() == RecoverOnDependency(old(View()), g, recovery)
    {
      tasks := tasks - {g};
      var run := runs[g];
      if !run.state.Running? { return; }
      var dep := recovery.dependencyScope;
      run := run.(generationAtSubmit := None, executionSealed := false, error := None, state := WaitingDeps,
          awaitsExternalWake := !recovery.forceFresh);
      if dep != run.scope && dep !in run.dependencyScopes {
        run := run.(dependencyScopes := run.dependencyScopes + [dep]);
      }
      runs := runs[g := run];
      DequeueReady(run.scope);
      if recovery.forceFresh { SchedulePostLock(ForceFresh(dep, run.priorityBand, recovery.stepKind, run.bundle)); }
    }

    /** The check around a persist call: true when the persist must not go on. */
    method AbandonPersist(g: RunId) returns (abandoned: bool)
      requires g in runs
      modifies this
      ensures abandoned <==> !old(runs[g]).state.Running? || old(View()).Stale(old(runs[g]))
      ensures View() == if !old(runs[g]).state.Running? then DropTask(old(View()), g)
                        else if abandoned then RetryAfterEpochBump(old(View()), g) else old(View())
    {
      if !runs[g].state.Running? {
        tasks := tasks - {g};
        return true;
      }
      if IsStale(runs[g]) {
        RetryStepAfterEpochBump(g);
        return true;
      }
      return false;
    }

    method PersistBegins(g: RunId)
      requires g in runs && g in tasks && tasks[g].PersistQueued?
      modifies this
      ensures View() == PersistCheck(old(View()), g)
    {
      var thenContinue := tasks[g].thenContinue;
      var abandoned := AbandonPersist(g);
      if !abandoned { tasks := tasks[g := PersistCalling(thenContinue)]; }
    }

    method PersistEnds(g: RunId)
      requires g in runs && g in tasks && tasks[g].PersistReturned?
      modifies this
      ensures View() == PersistFinish(cfg, old(View()), g)
    {
      var thenContinue := tasks[g].thenContinue;
      var abandoned := AbandonPersist(g);
      if abandoned { return; }
      if thenContinue {
        ContinueNodeStep(g);
      } else {
        tasks := tasks - {g};
        SettleNode(g, Complete, None);
      }
    }

    /** Match a pool report by scope and by `running`, as the source does. */
    method CompletePool(scope: ComputeScope, submitter: RunId, end: StepEnd)
      modifies this
      ensures View() == CompletePoolStep(cfg, old(View()), scope, submitter, end)
    {
      if scope !in nodes || nodes[scope] !in runs || !runs[nodes[scope]].state.Running? {
        tasks := tasks - {submitter};
        return;
      }
      var g := nodes[scope];
      if submitter != g { tasks := tasks - {submitter}; }
      match end {
        case Raised(isAbort) =>
          tasks := tasks - {g};
          FailNode(g, Failure(g, isAbort));
        case Returned(result) => OnStepSuccess(g, result);
      }
    }

    method AbortScope(scope: ComputeScope, isAbort: bool, expected: Option<RunId>) returns (aborted: bool)
      modifies this
      ensures View() == Abort(old(View()), scope, isAbort, expected)
      ensures aborted <==> old(View()).Has(scope) && !old(View()).Node(scope).IsTerminal()
                           && (expected.Some? ==> expected.value == old(nodes)[scope])
    {
      if scope !in nodes || nodes[scope] !in runs || runs[nodes[scope]].IsTerminal() { return false; }
      if expected.Some? && nodes[scope] != expected.value { return false; }
      FailNode(nodes[scope], Failure(nodes[scope], isAbort));
      return true;
    }

    // --- submission -------------------------------------------------------------------------

    method MaybeWakeParked(g: RunId)
      requires g in runs
      modifies this
      ensures View() == WakeParked(old(View()), g)
    {
      if !runs[g].state.Parked? { return; }
      var complete := CheckDepsComplete(g);
      runs := runs[g := runs[g].(generationAtSubmit := None, executionSealed := false)];
      if complete {
        runs := runs[g := runs[g].(state := Ready, awaitsExternalWake := false)];
        EnqueueReady(runs[g].scope);
      } else {
        runs := runs[g := runs[g].(state := WaitingDeps, awaitsExternalWake := false)];
        DequeueReady(runs[g].scope);
      }
    }

    /** Walk the waiting chain below a node with an explicit stack and queue a force-fresh
        submission for every abort-failed dependency found. */
    method ScheduleRecreateAborted(g: RunId)
      requires g in runs && View().Has(runs[g].scope) && nodes[runs[g].scope] == g
      modifies this`callbacks
      ensures View() == ScheduleRestarts(old(View()), g)
    {
      ghost var s := View();
      var root := runs[g].scope;
      var stack, seen: set<ComputeScope> := [root], {};
      var toRecreate: seq<ComputeScope> := [];
      RootReached(s, root);
      while stack != []
        invariant View() == s
        invariant Explores(s, g, stack, seen, toRecreate)
        decreases nodes.Keys - seen, |stack|
      {
        TopIsKnown(s, g, stack, seen, toRecreate);
        var current := stack[|stack| - 1];
        ghost var stack0 := stack;
        stack := stack[..|stack| - 1];
        if current in seen {
          SeenAgain(s, g, stack0, seen, toRecreate);
        } else {
          NewlySeen(s, g, stack0, seen, toRecreate);
          seen := seen + {current};
          stack, toRecreate := ExpandWaiting(g, current, stack, seen, toRecreate);
        }
      }
      Explored(s, g, seen, toRecreate);
      hide Explores;
      QueueRestarts(g, toRecreate);
      RequestsAreRestarts(s, g, toRecreate);
    }

    /** Look at every dependency of one node of the walk. */
    method ExpandWaiting(g: RunId, current: ComputeScope, stack0: seq<ComputeScope>, ghost seen: set<ComputeScope>,
            found0: seq<ComputeScope>)
      returns (stack: seq<ComputeScope>, found: seq<ComputeScope>)
      requires g in runs && Expands(View(), g, current, 0, stack0, seen, found0)
      ensures Explores(View(), g, stack, seen, found)
    {
      stack, found := stack0, found0;
      var deps := runs[nodes[current]].dependencyScopes;
      var i := 0;
      while i < |deps|
        invariant 0 <= i <= |deps|
        invariant Expands(View(), g, current, i, stack, seen, found)
      {
        var d := deps[i];
        if d in nodes && nodes[d] in runs {
          var dependency := runs[nodes[d]];
          if dependency.AbortFailed() {
            var bundle := if dependency.bundle.Some? then dependency.bundle else runs[g].bundle;
            if d !in found && bundle.Some? {
              ExpandsRestart(View(), g, current, i, stack, seen, found);
              found := found + [d];
            } else {
              ExpandsPast(View(), g, current, i, stack, seen, found);
            }
          } else if dependency.state.WaitingDeps? {
            ExpandsWaiting(View(), g, current, i, stack, seen, found);
            stack := stack + [d];
          } else {
            ExpandsPast(View(), g, current, i, stack, seen, found);
          }
        } else {
          ExpandsPast(View(), g, current, i, stack, seen, found);
        }
        i := i + 1;
      }
      Expanded(View(), g, current, stack, seen, found);
    }

    /** Queue the force-fresh submissions, one a scope. */
    method QueueRestarts(g: RunId, found: seq<ComputeScope>)
      requires g in runs && forall d :: d in found ==> View().Has(d)
      modifies this`callbacks
      ensures View() == old(View()).(callbacks := old(View()).callbacks + multiset(Requests(old(View()), g, found)))
    {
      ghost var s := View();
      var i := 0;
      while i < |found|
        invariant 0 <= i <= |found|
        invariant callbacks == old(callbacks) + Requests(s, g, found[..i])
      {
        var d := found[i];
        assert found[..i + 1] == found[..i] + [d];
        RequestsAppend(s, g, found[..i], d);
        var bundle := if runs[nodes[d]].bundle.Some? then runs[nodes[d]].bundle else runs[g].bundle;
        callbacks := callbacks + [ForceFresh(d, runs[g].priorityBand, None, bundle)];
        i := i + 1;
      }
      assert found[..i] == found;
    }

    method AttachToExisting(g: RunId, band: PriorityBand)
      requires g in runs
      modifies this
      ensures View() == Attach(old(View()), g, band)
    {
      if runs[g].IsTerminal() { return; }
      var run := runs[g].(waiters := runs[g].waiters + [nextHandle]);
      if !run.executionSealed && band.Rank() < run.priorityBand.Rank() { run := run.(priorityBand := band); }
      runs := runs[g := run];
      handles := handles[nextHandle := Handle(g, None)];
      nextHandle := nextHandle + 1;
    }

    method ReplaceTerminalNode(scope: ComputeScope)
      requires View().Has(scope)
      modifies this
      ensures View() == Replace(old(View()), scope)
    {
      var g := nodes[scope];
      DequeueReady(scope);
      runs := runs[g := runs[g].(waiters := [])];
      nodes, order := nodes - {scope}, Without(order, scope);
    }

    method AddRun(run: NodeRun)
      modifies this
      ensures View() == FreshRun(old(View()), run)
    {
      runs, nodes, order := runs[nextRun := run], nodes[run.scope := nextRun], order + [run.scope];
      nextRun := nextRun + 1;
    }

    method ResolveProfileStepIndex(steps: seq<StepSpec>, kind: Option<string>) returns (index: Option<nat>)
      ensures index == EntryIndex(steps, kind)
    {
      if kind.None? { return Some(0); }
      var i := 0;
      while i < |steps|
        invariant 0 <= i <= |steps|
        invariant EntryIndex(steps, kind) == (var rest := EntryIndex(steps[i..], kind); if rest.None? then None
                  else Some(rest.value + i))
      {
        assert steps[i..][1..] == steps[i + 1..];
        if steps[i].stepKind == kind.value { return Some(i); }
        i := i + 1;
      }
      return None;
    }

    /** Register the planned nodes, dropping hollow terminal runs first, and then the root as a
        placeholder when the plan left it out.  An unknown entry step raises in mid-loop. */
    method PlanAndRegister(req: Request, plan: Plan)
      modifies this
      ensures View() == RegisterPlan(cfg, old(View()), req, plan)
      ensures SchedulerPlans.HandedOut(old(View())) && !old(faulted) && !faulted ==>
                SchedulerPlans.PlanHeld(cfg, old(View()), View(), req, plan, None)
    {
      var i := 0;
      while i < |plan.nodes| && !faulted
        invariant 0 <= i <= |plan.nodes|
        invariant RegisterAll(cfg, View(), plan.nodes[i..], req, plan.satisfied)
                  == RegisterAll(cfg, old(View()), plan.nodes, req, plan.satisfied)
      {
        var planned := plan.nodes[i];
        assert plan.nodes[i..][1..] == plan.nodes[i + 1..];
        ghost var before := View();
        var scope := planned.scope;
        if scope in nodes && nodes[scope] in runs && runs[nodes[scope]].IsTerminal() && scope !in plan.satisfied {
          ReplaceTerminalNode(scope);
        }
        if scope !in nodes {
          var index := ResolveProfileStepIndex(cfg.Steps(scope), if scope == req.scope then req.stepKind else None);
          if index.None? {
            faulted := true;
          } else {
            AddRun(NewRun(planned, WaitingDeps, index.value, req.band, req.bundle));
          }
        }
        assert View() == Register(cfg, before, planned, req, plan.satisfied);
        i := i + 1;
      }
      if !faulted && req.scope !in nodes {
        AddRun(NewRun(PlannedNode(req.scope, []), Complete, 0, req.band, req.bundle));
      }
      RegisteredAsPlanned(old(View()), req, plan);
    }

    lemma RegisteredAsPlanned(s: Scheduler, req: Request, plan: Plan)
      ensures SchedulerPlans.HandedOut(s) && !s.faulted && !RegisterPlan(cfg, s, req, plan).faulted ==>
                SchedulerPlans.PlanHeld(cfg, s, RegisterPlan(cfg, s, req, plan), req, plan, None)
    {
      hide RegisterPlan, SchedulerPlans.PlanHeld, SchedulerPlans.HandedOut;
      if SchedulerPlans.HandedOut(s) && !s.faulted && !RegisterPlan(cfg, s, req, plan).faulted {
        SchedulerPlans.RegisterPlanHolds(cfg, s, req, plan);
      }
    }

    method PlanLocked(req: Request, plan: Plan)
      modifies this
      ensures View() == PlanSubmission(cfg, old(View()), req, plan)
    {
      PlanAndRegister(req, plan);
      if !faulted { RefreshReadiness(None); }
    }

    /** Apply one submission under the lock. */
    method SubmitLocked(req: Request, plan: Plan, o: DispatchOracle)
      requires View().Has(req.scope) ==> runs[nodes[req.scope]].scope == req.scope
      modifies this
      ensures View() == Submit(cfg, old(View()), req, plan, o)
      ensures SchedulerPlans.HandedOut(old(View())) && !old(faulted) && !faulted && SchedulerPlans.Open(old(View()),
                req.scope)
              && (req.scope in old(nodes) ==> req.forceFresh) ==>
                SchedulerPlans.PlanHeld(cfg, old(View()), View(), req, plan,
                SchedulerPlans.TakenOut(old(View()), req.scope))
    {
      if req.scope in nodes && nodes[req.scope] in runs {
        var g := nodes[req.scope];
        if req.forceFresh && runs[g].IsTerminal() {
          ReplaceTerminalNode(req.scope);
          PlanLocked(req, plan);
        } else {
          if req.forceFresh { AttachFresh(g); }
          AttachToExisting(g, req.band);
        }
      } else {
        PlanLocked(req, plan);
      }
      DispatchPass(o);
      SubmittedAsPlanned(old(View()), req, plan, o);
    }

    lemma SubmittedAsPlanned(s: Scheduler, req: Request, plan: Plan, o: DispatchOracle)
      ensures SchedulerPlans.HandedOut(s) && !s.faulted && !Submit(cfg, s, req, plan, o).faulted
              && SchedulerPlans.Open(s, req.scope) && (req.scope in s.nodes ==> req.forceFresh) ==>
                SchedulerPlans.PlanHeld(cfg, s, Submit(cfg, s, req, plan, o), req, plan,
                SchedulerPlans.TakenOut(s, req.scope))
    {
      hide Submit, SchedulerPlans.PlanHeld, SchedulerPlans.HandedOut, SchedulerPlans.TakenOut;
      if SchedulerPlans.HandedOut(s) && !s.faulted && !Submit(cfg, s, req, plan, o).faulted
          && SchedulerPlans.Open(s, req.scope) && (req.scope in s.nodes ==> req.forceFresh) {
        SchedulerPlans.SubmitHolds(cfg, s, req, plan, o);
      }
    }

    /** Submit every unsatisfied request of a batch under one lock, dropping hollow terminal
        nodes first. */
    method EnsureScopes(demands: seq<Demand>)
      requires SchedulerInvariants.Inv(cfg, View()) && !faulted
      requires forall d :: d in demands ==> SchedulerSubmit.PlanOk(cfg, d.req, d.plan)
      modifies this
      ensures View() == EnsureAll(cfg, old(View()), demands)
      ensures !faulted ==> SchedulerInvariants.Inv(cfg, View())
      ensures !faulted ==> SchedulerPlans.AllHeld(demands, View())
    {
      BatchHeld(View(), demands);
      hide SchedulerPlans.AllHeld;
      var i := 0;
      while i < |demands|
        invariant 0 <= i <= |demands| && !faulted && SchedulerInvariants.Inv(cfg, View())
        invariant EnsureAll(cfg, View(), demands[i..]) == EnsureAll(cfg, old(View()), demands)
      {
        var d := demands[i];
        ghost var s := View();
        assert demands[i..][0] == d && demands[i..][1..] == demands[i + 1..];
        hide SchedulerInvariants.Inv, EnsureSubmit, SchedulerPlans.AllHeld, SchedulerSubmit.PlanOk;
        EnsuredKeeps(s, d);
        KeyedAt(s, d.req.scope);
        EnsureOne(d.req, d.plan, d.oracle);
        i := i + 1;
        if faulted { return; }
      }
    }

    /** Submit one request of a batch, dropping a hollow terminal node first. */
    method EnsureOne(req: Request, plan: Plan, o: DispatchOracle)
      requires View().Has(req.scope) ==> runs[nodes[req.scope]].scope == req.scope
      modifies this
      ensures View() == EnsureSubmit(cfg, old(View()), req, plan, o)
      ensures SchedulerPlans.HandedOut(old(View())) && !old(faulted) && !faulted
              && SchedulerPlans.Open(old(View()), req.scope) ==>
                SchedulerPlans.PlanHeld(cfg, old(View()), View(), req, plan,
                SchedulerPlans.TakenOut(old(View()), req.scope))
    {
      EnsuredAsPlanned(View(), req, plan, o);
      hide Submit, SchedulerPlans.PlanHeld, SchedulerPlans.HandedOut, SchedulerPlans.TakenOut, SchedulerPlans.Open;
      if req.scope in nodes && nodes[req.scope] in runs && runs[nodes[req.scope]].IsTerminal() && !req.forceFresh {
        ReplaceTerminalNode(req.scope);
      }
      SubmitLocked(req, plan, o);
    }

    lemma BatchHeld(s: Scheduler, demands: seq<Demand>)
      requires SchedulerInvariants.Inv(cfg, s) && !s.faulted
      requires forall d :: d in demands ==> SchedulerSubmit.PlanOk(cfg, d.req, d.plan)
      ensures !EnsureAll(cfg, s, demands).faulted ==>
                SchedulerPlans.AllHeld(demands, EnsureAll(cfg, s, demands))
    {
      hide EnsureAll, SchedulerPlans.AllHeld, SchedulerInvariants.Inv, SchedulerSubmit.PlanOk;
      if !EnsureAll(cfg, s, demands).faulted { SchedulerPlans.BatchIsHeld(cfg, s, demands); }
    }

    lemma EnsuredAsPlanned(s: Scheduler, req: Request, plan: Plan, o: DispatchOracle)
      ensures SchedulerPlans.HandedOut(s) && !s.faulted && !EnsureSubmit(cfg, s, req, plan, o).faulted
              && SchedulerPlans.Open(s, req.scope) ==>
                SchedulerPlans.PlanHeld(cfg, s, EnsureSubmit(cfg, s, req, plan, o), req, plan,
                SchedulerPlans.TakenOut(s, req.scope))
    {
      hide EnsureSubmit, SchedulerPlans.PlanHeld, SchedulerPlans.HandedOut, SchedulerPlans.TakenOut;
      if SchedulerPlans.HandedOut(s) && !s.faulted && !EnsureSubmit(cfg, s, req, plan, o).faulted
          && SchedulerPlans.Open(s, req.scope) {
        SchedulerPlans.EnsureHolds(cfg, s, req, plan, o);
      }
    }

    lemma EnsuredKeeps(s: Scheduler, d: Demand)
      requires SchedulerInvariants.Inv(cfg, s) && !s.faulted && SchedulerSubmit.PlanOk(cfg, d.req, d.plan)
      ensures var s' := EnsureSubmit(cfg, s, d.req, d.plan, d.oracle);
              !s'.faulted ==> SchedulerInvariants.Inv(cfg, s')
    {
      hide SchedulerInvariants.Inv, EnsureSubmit, SchedulerSubmit.PlanOk;
      SchedulerEvents.EnsureEventKeeps(cfg, s, d.req, d.plan, d.oracle);
    }

    lemma KeyedAt(s: Scheduler, scope: ComputeScope)
      requires SchedulerInvariants.Inv(cfg, s)
      ensures s.Has(scope) ==> s.Node(scope).scope == scope
    {}

    method AttachFresh(g: RunId)
      requires g in runs && View().Has(runs[g].scope) && nodes[runs[g].scope] == g
      modifies this
      ensures View() == ForceFreshAttach(old(View()), g)
      ensures g in runs
    {
      MaybeWakeParked(g);
      ghost var s1 := View();
      assert runs[g].scope == old(runs[g].scope) && nodes == old(nodes);
      if runs[g].state.WaitingDeps? || runs[g].state.Ready? {
        RefreshNodeReadiness(g);
        RefreshKeepsTable(s1, g);
        if runs[g].state.WaitingDeps? { ScheduleRecreateAborted(g); }
      }
    }
  }
}
