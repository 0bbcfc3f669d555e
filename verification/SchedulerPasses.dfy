/** The two loops that run under the lock: the readiness pass and the dispatch pass. */
module SchedulerPasses {
  import opened Prelude
  import opened Scheduler
  import opened SchedulerInvariants
  import opened SchedulerSections

  // --- readiness ----------------------------------------------------------------------------

  /** What a readiness pass may do: it begins and completes nothing, and a node it leaves
      waiting either was left alone or really lacks a dependency. */
  ghost predicate Refreshes(s: Scheduler, s': Scheduler) {
    && s'.nodes == s.nodes && s'.order == s.order && s'.runs.Keys == s.runs.Keys
    && s'.tasks == s.tasks && s'.faulted == s.faulted
    && s.callbacks <= s'.callbacks
    && Absorbs(s, s') && BeginsNothing(s, s')
    && (forall g {:trigger s'.Running(g)} :: s.Running(g) ==> s'.Running(g))
    && (forall x :: s'.CompleteAt(x) ==> s.CompleteAt(x))
    && (forall g :: g in s.runs ==> s'.runs[g].dependencyScopes == s.runs[g].dependencyScopes)
    && (forall g :: g in s.runs && s'.runs[g].state.WaitingDeps? ==>
          s'.runs[g] == s.runs[g] || (!s'.runs[g].awaitsExternalWake && !s'.DepsComplete(s'.runs[g])))
  }

  lemma RefreshesTransitive(s: Scheduler, s1: Scheduler, s2: Scheduler)
    requires Refreshes(s, s1) && Refreshes(s1, s2)
    ensures Refreshes(s, s2)
  {
    forall g | g in s.runs && s2.runs[g].state.WaitingDeps?
      ensures s2.runs[g] == s.runs[g] || (!s2.runs[g].awaitsExternalWake && !s2.DepsComplete(s2.runs[g]))
    {
      if s2.runs[g] == s1.runs[g] && s1.runs[g] != s.runs[g] {
        var d :| d in s1.runs[g].dependencyScopes && !s1.CompleteAt(d);
        assert !s2.CompleteAt(d);
      }
    }
  }

  lemma FailedDependencyExcuses(s: Scheduler, g: RunId)
    requires g in s.runs && FailedDependencyError(s, s.runs[g].dependencyScopes).Some?
    ensures Excuses(s, g, FailedDependencyError(s, s.runs[g].dependencyScopes).value)
  {
    var e := FailedDependencyError(s, s.runs[g].dependencyScopes);
    var d :| d in s.runs[g].dependencyScopes && s.Has(d) && s.Node(d).state.Failed? && s.Node(d).error == e
        && !e.value.isAbort;
    assert FailedWith(s, d, e.value);
  }

  lemma PromoteKeeps(cfg: Config, s: Scheduler, s1: Scheduler, g: RunId)
    requires Core(cfg, s) && Edits(s, s1, g) && s1.tasks == s.tasks
    requires s.runs[g].state.WaitingDeps? || s.runs[g].state.Parked?
    requires s1.runs[g].error == s.runs[g].error && s1.runs[g].profileStepIndex == s.runs[g].profileStepIndex
    ensures Core(cfg, Promote(s1, g)) && (Wakes(s) ==> Wakes(Promote(s1, g)))
    ensures Touches(s, Promote(s1, g), g) && BeginsNothing(s, Promote(s1, g))
    ensures Promote(s1, g).runs[g] == s1.runs[g].(state := Ready, awaitsExternalWake := false)
            && Promote(s1, g).tasks == s.tasks
  {
    hide Core, Wakes, BeginsNothing;
    CoreRun(cfg, s, g);
    hide RunOk;
    RequeueKeeps(cfg, s, Promote(s1, g), g);
  }

  lemma DemoteToWaitingKeeps(cfg: Config, s: Scheduler, s1: Scheduler, g: RunId)
    requires Core(cfg, s) && Edits(s, s1, g) && s1.tasks == s.tasks
    requires s.runs[g].state.WaitingDeps? || s.runs[g].state.Parked? || s.runs[g].state.Ready?
    requires s1.runs[g].error == s.runs[g].error && s1.runs[g].profileStepIndex == s.runs[g].profileStepIndex
    requires !s.DepsComplete(s.runs[g])
    ensures Core(cfg, Demote(s1, g)) && (Wakes(s) ==> Wakes(Demote(s1, g)))
    ensures Touches(s, Demote(s1, g), g) && BeginsNothing(s, Demote(s1, g))
    ensures !Demote(s1, g).DepsComplete(s.runs[g])
    ensures Demote(s1, g).runs[g] == s1.runs[g].(state := WaitingDeps, awaitsExternalWake := false)
            && Demote(s1, g).tasks == s.tasks
  {
    hide Core, Wakes, BeginsNothing;
    CoreRun(cfg, s, g);
    var s' := Demote(s1, g);
    var d :| d in s.runs[g].dependencyScopes && !s.CompleteAt(d);
    assert !s'.CompleteAt(d);
    DemoteKeeps(cfg, s, s', g);
  }

  lemma NothingTouched(s: Scheduler, g: RunId)
    requires g in s.runs
    ensures Touches(s, s, g) && BeginsNothing(s, s)
  {
    assert s == s.(runs := s.runs[g := s.runs[g]]);
  }

  lemma RefreshFails(cfg: Config, s: Scheduler, g: RunId)
    requires Core(cfg, s) && g in s.runs && !s.runs[g].BlocksReadinessRefresh()
    requires FailedDependencyError(s, s.runs[g].dependencyScopes).Some?
    ensures Core(cfg, Refresh(s, g)) && (Wakes(s) ==> Wakes(Refresh(s, g)))
    ensures Touches(s, Refresh(s, g), g) && BeginsNothing(s, Refresh(s, g))
    ensures Refresh(s, g).tasks == s.tasks
    ensures Refresh(s, g).runs[g].state.Failed? && Refresh(s, g).runs[g].dependencyScopes == s.runs[g].dependencyScopes
  {
    CoreRun(cfg, s, g);
    hide Core, Wakes, BeginsNothing;
    FailedDependencyExcuses(s, g);
    SettleKeeps(cfg, s, s, g, Failed, FailedDependencyError(s, s.runs[g].dependencyScopes));
  }

  lemma RefreshKeeps(cfg: Config, s: Scheduler, g: RunId)
    requires Core(cfg, s) && g in s.runs
    ensures Core(cfg, Refresh(s, g)) && (Wakes(s) ==> Wakes(Refresh(s, g)))
    ensures Touches(s, Refresh(s, g), g) && BeginsNothing(s, Refresh(s, g))
    ensures Refresh(s, g).runs[g].dependencyScopes == s.runs[g].dependencyScopes
    ensures Refresh(s, g).runs[g].state.WaitingDeps? ==>
              !Refresh(s, g).runs[g].awaitsExternalWake && !Refresh(s, g).DepsComplete(s.runs[g])
    ensures !Refresh(s, g).runs[g].state.Complete? || s.runs[g].state.Complete?
    ensures s.runs[g].state.Running? ==> Refresh(s, g).runs[g].state.Running?
    ensures Refresh(s, g).tasks == s.tasks
  {
    hide Core, Wakes, BeginsNothing, Touches, Promote, Demote, Fail;
    var run := s.runs[g];
    var failed := FailedDependencyError(s, run.dependencyScopes);
    if run.BlocksReadinessRefresh() {
      NothingTouched(s, g);
    } else if failed.Some? {
      RefreshFails(cfg, s, g);
    } else if s.DepsComplete(run) {
      if run.state.WaitingDeps? { PromoteKeeps(cfg, s, s, g); } else { NothingTouched(s, g); }
    } else {
      DemoteToWaitingKeeps(cfg, s, s, g);
    }
  }

  lemma RefreshRefreshes(cfg: Config, s: Scheduler, g: RunId)
    requires Core(cfg, s) && g in s.runs
    ensures Refreshes(s, Refresh(s, g))
  {
    RefreshKeeps(cfg, s, g);
  }

  ghost predicate Selected(s: Scheduler, x: ComputeScope, only: Option<ComputeScope>) {
    s.Has(x) && (only.Some? ==> only.value in s.Node(x).dependencyScopes)
  }

  /** A readiness pass keeps the invariant and leaves no selected node waiting for nothing. */
  lemma {:induction false} RefreshEachKeeps(cfg: Config, s: Scheduler, scopes: seq<ComputeScope>,
          only: Option<ComputeScope>)
    requires Core(cfg, s)
    ensures Core(cfg, RefreshEach(s, scopes, only)) && (Wakes(s) ==> Wakes(RefreshEach(s, scopes, only)))
    ensures Refreshes(s, RefreshEach(s, scopes, only))
    ensures forall x ::
            x in scopes && Selected(s, x, only) && RefreshEach(s, scopes, only).Node(x).state.WaitingDeps? ==>
              !RefreshEach(s, scopes, only).DepsComplete(RefreshEach(s, scopes, only).Node(x))
    decreases |scopes|
  {
    if scopes != [] {
      var x0 := scopes[0];
      var s1 := if Selected(s, x0, only) then Refresh(s, s.nodes[x0]) else s;
      var s' := RefreshEach(s, scopes, only);
      if Selected(s, x0, only) {
        RefreshKeeps(cfg, s, s.nodes[x0]);
        RefreshRefreshes(cfg, s, s.nodes[x0]);
      }
      RefreshEachKeeps(cfg, s1, scopes[1..], only);
      hide Core, Wakes, Refresh, Refreshes;
      RefreshesTransitive(s, s1, s');
      forall x | x in scopes && Selected(s, x, only) && s'.Node(x).state.WaitingDeps?
        ensures !s'.DepsComplete(s'.Node(x))
      {
        if x in scopes[1..] {
          SelectionStays(s, s1, x, only);
        } else {
          RefreshedStaysBlocked(s1, s', s.nodes[x0]);
        }
      }
    }
  }

  lemma SelectionStays(s: Scheduler, s1: Scheduler, x: ComputeScope, only: Option<ComputeScope>)
    requires (s1 == s || Refreshes(s, s1)) && Selected(s, x, only)
    ensures Selected(s1, x, only)
  {
    var g := s.nodes[x];
    assert g in s.runs && g in s1.runs;
    if s1 != s {
      assert Refreshes(s, s1);
      assert s1.runs[g].dependencyScopes == s.runs[g].dependencyScopes;
    }
  }

  lemma RefreshedStaysBlocked(s1: Scheduler, s': Scheduler, g: RunId)
    requires Refreshes(s1, s') && g in s1.runs
    requires s1.runs[g].state.WaitingDeps? ==> !s1.DepsComplete(s1.runs[g])
    ensures s'.runs[g].state.WaitingDeps? ==> !s'.DepsComplete(s'.runs[g])
  {
    if s'.runs[g].state.WaitingDeps? && s'.runs[g] == s1.runs[g] {
      var d :| d in s1.runs[g].dependencyScopes && !s1.CompleteAt(d);
      assert !s'.CompleteAt(d);
    }
  }

  /** A pass over the whole node table repairs every lost wake-up by itself. */
  lemma RefreshAllWakes(cfg: Config, s: Scheduler)
    requires Core(cfg, s)
    ensures Inv(cfg, RefreshEach(s, s.order, None))
    ensures Refreshes(s, RefreshEach(s, s.order, None))
    ensures forall g :: g in s.runs && RefreshEach(s, s.order, None).runs[g].state.WaitingDeps? ==>
              !RefreshEach(s, s.order, None).DepsComplete(RefreshEach(s, s.order, None).runs[g])
  {
    var s' := RefreshEach(s, s.order, None);
    RefreshEachKeeps(cfg, s, s.order, None);
    forall g | g in s.runs && s'.runs[g].state.WaitingDeps? ensures !s'.DepsComplete(s'.runs[g]) {
      assert Live(s', g);
      assert Selected(s, s'.runs[g].scope, None);
    }
    forall g | g in s'.runs ensures WakeOk(s', g) {}
  }

  // --- dispatch -----------------------------------------------------------------------------

  function Requeued(s: Scheduler, pick: Option<ComputeScope>): Scheduler {
    if pick.None? then s else s.(readyQueue := s.readyQueue + [pick.value])
  }

  /** Reordering the ready queue keeps the invariant. */
  lemma ReorderKeeps(cfg: Config, s: Scheduler, queue: seq<ComputeScope>)
    requires Core(cfg, s) && NoDup(queue) && forall x :: x in queue <==> x in s.readyQueue
    ensures Core(cfg, s.(readyQueue := queue)) && (Wakes(s) ==> Wakes(s.(readyQueue := queue)))
    ensures Dispatches(s, s.(readyQueue := queue)) && Absorbs(s, s.(readyQueue := queue))
  {
    var s' := s.(readyQueue := queue);
    assert forall x :: s'.IsReady(x) <==> s.IsReady(x);
    forall g | g in s'.runs ensures RunOk(cfg, s', g) { SameRunOk(cfg, s, s', g); }
    forall h | h in s'.handles ensures HandleOk(s', h) { assert HandleOk(s, h); }
    forall g | g in s'.runs && !s'.runs[g].IsTerminal() ensures Live(s', g) { assert Live(s, g); }
    if Wakes(s) {
      forall g | g in s'.runs ensures WakeOk(s', g) {
        assert WakeOk(s, g);
        if s'.DepsComplete(s'.runs[g]) { assert forall d :: s'.CompleteAt(d) ==> s.CompleteAt(d); }
      }
    }
  }

  lemma SameRunOk(cfg: Config, s: Scheduler, s': Scheduler, g: RunId)
    requires g in s.runs && RunOk(cfg, s, g)
    requires s'.runs == s.runs && s'.tasks == s.tasks && s'.handles == s.handles
    requires s'.epochs == s.epochs && s.durable <= s'.durable
    ensures RunOk(cfg, s', g)
  {
    if s.runs[g].state.Failed? && s.runs[g].error.value.origin != g {
      var source :| Blames(s, g, source);
      assert Blames(s', g, source);
    }
  }

  lemma Rotated(q: seq<ComputeScope>)
    requires q != [] && NoDup(q)
    ensures NoDup(q[1..] + [q[0]]) && NoDup(q[1..])
    ensures forall x :: x in q[1..] + [q[0]] <==> x in q
    ensures Without(q, q[0]) == q[1..] && q[0] !in q[1..]
  {
    assert q == [q[0]] + q[1..];
    NoDupTail(q);
    AppendMembers(q[1..], q[0]);
  }

  /** A dispatch pass, a demotion in it, or the choice of the next node to begin. */
  ghost predicate PassKeeps(cfg: Config, s: Scheduler, s': Scheduler) {
    Core(cfg, s') && (Wakes(s) ==> Wakes(s')) && Dispatches(s, s') && Absorbs(s, s')
  }

  lemma PassTransitive(cfg: Config, s: Scheduler, s1: Scheduler, s2: Scheduler)
    requires PassKeeps(cfg, s, s1) && PassKeeps(cfg, s1, s2)
    ensures PassKeeps(cfg, s, s2)
  {
    DispatchesTransitive(s, s1, s2);
  }

  /** The head of the queue, ready though a dependency regressed, goes back to waiting. */
  function DemoteHead(s: Scheduler): Scheduler
    requires s.readyQueue != [] && s.IsReady(s.readyQueue[0])
  {
    var scope := s.readyQueue[0];
    SetRun(s.(readyQueue := s.readyQueue[1..]), s.nodes[scope],
        s.Node(scope).(state := WaitingDeps, awaitsExternalWake := false))
  }

  /** The head of the queue, held back by a gate, goes to the end. */
  function RotateHead(s: Scheduler): Scheduler
    requires s.readyQueue != []
  {
    s.(readyQueue := s.readyQueue[1..] + [s.readyQueue[0]])
  }

  function TakeHead(s: Scheduler): Scheduler
    requires s.readyQueue != []
  {
    s.(readyQueue := s.readyQueue[1..])
  }

  /** One step of a sweep over a queue of ready nodes. */
  lemma PickStep(s: Scheduler, admit: (ComputeScope, nat) -> bool, round: nat, budget: nat)
    requires budget > 0 && s.readyQueue != [] && s.IsReady(s.readyQueue[0])
    ensures Pick(s, admit, round, budget) ==
            if !s.DepsComplete(s.Node(s.readyQueue[0])) then Pick(DemoteHead(s), admit, round, budget - 1)
            else if !admit(s.readyQueue[0], round) then Pick(RotateHead(s), admit, round, budget - 1)
            else (TakeHead(s), Some(s.readyQueue[0]))
  {
    var tail := TakeHead(s);
    assert tail.(readyQueue := tail.readyQueue + [s.readyQueue[0]]) == RotateHead(s);
  }

  lemma PickDemotes(cfg: Config, s: Scheduler)
    requires Core(cfg, s) && s.readyQueue != [] && s.IsReady(s.readyQueue[0])
    requires !s.DepsComplete(s.Node(s.readyQueue[0]))
    ensures PassKeeps(cfg, s, DemoteHead(s))
  {
    var scope := s.readyQueue[0];
    Rotated(s.readyQueue);
    var g := s.nodes[scope];
    assert s.runs[g].scope == scope;
    DemoteToWaitingKeeps(cfg, s, s, g);
    var s' := Demote(s, g);
    assert s' == DemoteHead(s);
    hide Core, Wakes, Demote, DemoteHead;
    forall x | s.CompleteAt(x) ensures s'.CompleteAt(x) {}
    assert Dispatches(s, s');
  }

  lemma PassIsCore(cfg: Config, s: Scheduler, s': Scheduler)
    requires PassKeeps(cfg, s, s')
    ensures Core(cfg, s')
  {
  }

  lemma PassReflexive(cfg: Config, s: Scheduler)
    requires Core(cfg, s)
    ensures PassKeeps(cfg, s, s)
  {
  }

  lemma HeadIsReady(cfg: Config, s: Scheduler)
    requires Core(cfg, s) && s.readyQueue != []
    ensures s.IsReady(s.readyQueue[0])
  {
    assert s.readyQueue[0] in s.readyQueue;
  }

  lemma RotateKeeps(cfg: Config, s: Scheduler)
    requires Core(cfg, s) && s.readyQueue != []
    ensures PassKeeps(cfg, s, RotateHead(s))
  {
    Rotated(s.readyQueue);
    hide Core, Wakes, Dispatches, Absorbs;
    ReorderKeeps(cfg, s, s.readyQueue[1..] + [s.readyQueue[0]]);
  }

  /** What a sweep keeps, seen from the state in which its choice is still queued. */
  ghost predicate SweepKeeps(cfg: Config, s: Scheduler, swept: (Scheduler, Option<ComputeScope>)) {
    && PassKeeps(cfg, s, Requeued(swept.0, swept.1))
    && swept.0.callbacks == s.callbacks && swept.0.faulted == s.faulted
  }

  lemma SweepTransitive(cfg: Config, s: Scheduler, s1: Scheduler, swept: (Scheduler, Option<ComputeScope>))
    requires PassKeeps(cfg, s, s1) && s1.callbacks == s.callbacks && s1.faulted == s.faulted
             && SweepKeeps(cfg, s1, swept)
    ensures SweepKeeps(cfg, s, swept)
  {
    hide PassKeeps, Requeued;
    PassTransitive(cfg, s, s1, Requeued(swept.0, swept.1));
  }

  lemma HeadMoves(s: Scheduler)
    requires s.readyQueue != [] && s.IsReady(s.readyQueue[0])
    ensures DemoteHead(s).callbacks == s.callbacks && DemoteHead(s).faulted == s.faulted
    ensures RotateHead(s).callbacks == s.callbacks && RotateHead(s).faulted == s.faulted
    ensures TakeHead(s).callbacks == s.callbacks && TakeHead(s).faulted == s.faulted
    ensures Requeued(TakeHead(s), Some(s.readyQueue[0])) == RotateHead(s)
  {}

  lemma TakenKeeps(cfg: Config, s: Scheduler)
    requires s.readyQueue != [] && s.IsReady(s.readyQueue[0]) && PassKeeps(cfg, s, RotateHead(s))
    ensures SweepKeeps(cfg, s, (TakeHead(s), Some(s.readyQueue[0])))
  {
    hide PassKeeps;
    HeadMoves(s);
  }

  lemma NothingSwept(cfg: Config, s: Scheduler, admit: (ComputeScope, nat) -> bool, round: nat, budget: nat)
    requires Core(cfg, s) && (budget == 0 || s.readyQueue == [])
    ensures SweepKeeps(cfg, s, Pick(s, admit, round, budget))
  {
    PassReflexive(cfg, s);
    hide Core, PassKeeps;
  }

  lemma {:induction false} PickKeeps(cfg: Config, s: Scheduler, admit: (ComputeScope, nat) -> bool, round: nat,
          budget: nat)
    requires Core(cfg, s)
    ensures SweepKeeps(cfg, s, Pick(s, admit, round, budget))
    decreases budget, 0
  {
    hide *;
    if budget == 0 || s.readyQueue == [] {
      NothingSwept(cfg, s, admit, round, budget);
    } else {
      HeadIsReady(cfg, s);
      PickStep(s, admit, round, budget);
      HeadMoves(s);
      RotateKeeps(cfg, s);
      if !s.DepsComplete(s.Node(s.readyQueue[0])) {
        PickDemotes(cfg, s);
        PickKeepsFrom(cfg, s, DemoteHead(s), admit, round, budget - 1);
      } else if !admit(s.readyQueue[0], round) {
        PickKeepsFrom(cfg, s, RotateHead(s), admit, round, budget - 1);
      } else {
        TakenKeeps(cfg, s);
      }
    }
  }

  lemma {:induction false} PickKeepsFrom(cfg: Config, s: Scheduler, s1: Scheduler, admit: (ComputeScope, nat) -> bool,
          round: nat, budget: nat)
    requires PassKeeps(cfg, s, s1) && s1.callbacks == s.callbacks && s1.faulted == s.faulted
    ensures SweepKeeps(cfg, s, Pick(s1, admit, round, budget))
    decreases budget, 1
  {
    PassIsCore(cfg, s, s1);
    hide *;
    PickKeeps(cfg, s1, admit, round, budget);
    SweepTransitive(cfg, s, s1, Pick(s1, admit, round, budget));
  }

  /** The state after `Pick` chose `scope`, seen from one where the scope is still queued. */
  ghost predicate Chosen(s: Scheduler, s1: Scheduler, scope: ComputeScope) {
    && s == s1.(readyQueue := s1.readyQueue + [scope])
    && s1.IsReady(scope) && s1.DepsComplete(s1.Node(scope))
  }

  lemma ChosenQueue(cfg: Config, s: Scheduler, s1: Scheduler, scope: ComputeScope)
    requires Core(cfg, s) && Chosen(s, s1, scope)
    ensures scope !in s1.readyQueue && NoDup(s1.readyQueue)
    ensures Without(s.readyQueue, scope) == s1.readyQueue
    ensures Live(s, s.nodes[scope]) && s.runs[s.nodes[scope]].scope == scope
    ensures s.DepsComplete(s.Node(scope)) && s.IsReady(scope)
  {
    assert TableOk(s) && QueueOk(s);
    hide Core;
    var q := s1.readyQueue;
    forall i: nat | i < |q| ensures q[i] != scope { assert Differ(q + [scope], i, |q|); }
    forall i: nat, j: nat | i < j < |q| ensures Differ(q, i, j) { assert Differ(q + [scope], i, j); }
    WithoutLast(q, scope);
    forall d | d in s1.Node(scope).dependencyScopes ensures s.CompleteAt(d) { assert s1.CompleteAt(d); }
  }

  lemma {:induction false} WithoutLast(q: seq<ComputeScope>, x: ComputeScope)
    requires x !in q
    ensures Without(q + [x], x) == q
  {
    if q != [] {
      assert (q + [x])[1..] == q[1..] + [x];
      WithoutLast(q[1..], x);
    }
  }

  /** Beginning the chosen node's step: its dependencies are complete and it owns the current epoch. */
  lemma BeginKeeps(cfg: Config, s: Scheduler, s1: Scheduler, scope: ComputeScope, task: Task)
    requires Core(cfg, s) && Chosen(s, s1, scope) && (task.InlineBuild? || task.PoolFlush?)
    ensures PassKeeps(cfg, s, Begin(s1, s1.nodes[scope], task))
  {
    var g := s1.nodes[scope];
    var s' := Begin(s1, g, task);
    CoreRun(cfg, s, g);
    ChosenQueue(cfg, s, s1, scope);
    assert Touches(s, s', g);
    assert QueueOk(s') by { DequeueKeepsQueue(s, s', g); }
    assert RunOk(cfg, s', g) by { assert FailureOk(s', g); }
    forall h | h in s'.handles && s'.handles[h].run == g ensures HandleOk(s', h) { assert HandleOk(s, h); }
    TouchKeepsCore(cfg, s, s', g);
    if Wakes(s) { TouchKeepsWakes(cfg, s, s', g); }
    BeginDispatches(cfg, s, s1, scope, task);
  }

  lemma BeginDispatches(cfg: Config, s: Scheduler, s1: Scheduler, scope: ComputeScope, task: Task)
    requires Core(cfg, s) && Chosen(s, s1, scope)
    ensures Dispatches(s, Begin(s1, s1.nodes[scope], task)) && Absorbs(s, Begin(s1, s1.nodes[scope], task))
  {
    ChosenQueue(cfg, s, s1, scope);
    hide Core;
    var g := s1.nodes[scope];
    var s' := Begin(s1, g, task);
    forall x | s.CompleteAt(x) ensures s'.CompleteAt(x) {}
    assert BeganSoundly(s', g) by {
      forall d | d in s.runs[g].dependencyScopes ensures s'.CompleteAt(d) { assert s.CompleteAt(d); }
    }
  }

  lemma ShortCircuitKeeps(cfg: Config, s: Scheduler, s1: Scheduler, scope: ComputeScope, hydrated: Option<Wire>)
    requires Core(cfg, s) && Chosen(s, s1, scope)
    ensures PassKeeps(cfg, s, ShortCircuit(s1, s1.nodes[scope], hydrated))
  {
    var g := s1.nodes[scope];
    CoreRun(cfg, s, g);
    ChosenQueue(cfg, s, s1, scope);
    assert g !in s.tasks;
    hide Core, Wakes, RunOk, Live;
    var edited := Hydrated(s, g, hydrated);
    ShortCircuitSettles(s, s1, scope, hydrated);
    hide Settle, ShortCircuit;
    SettleKeeps(cfg, s, edited, g, Complete, None);
    SettledDispatches(s, Settle(edited, g, Complete, None), g);
  }

  function Hydrated(s: Scheduler, g: RunId, hydrated: Option<Wire>): Scheduler
    requires g in s.runs
  {
    var wire := if s.runs[g].resultWire.Some? then s.runs[g].resultWire else if hydrated.Some? then hydrated
        else Some(EmptyWire);
    SetRun(s, g, s.runs[g].(resultWire := wire))
  }

  lemma ShortCircuitSettles(s: Scheduler, s1: Scheduler, scope: ComputeScope, hydrated: Option<Wire>)
    requires Chosen(s, s1, scope) && Without(s.readyQueue, scope) == s1.readyQueue && scope !in s1.readyQueue
    requires s.runs[s.nodes[scope]].scope == scope
    ensures ShortCircuit(s1, s1.nodes[scope], hydrated)
            == Settle(Hydrated(s, s.nodes[scope], hydrated), s.nodes[scope], Complete, None)
    ensures Edits(s, Hydrated(s, s.nodes[scope], hydrated), s.nodes[scope])
  {
  }

  lemma SettledDispatches(s: Scheduler, s': Scheduler, g: RunId)
    requires Touches(s, s', g) && BeginsNothing(s, s') && s.runs[g].state.Ready?
    ensures Dispatches(s, s') && Absorbs(s, s')
  {
    forall x | s.CompleteAt(x) ensures s'.CompleteAt(x) {}
  }

  /** A dispatch pass keeps the invariant, unless it is left by an internal error. */
  lemma {:induction false} DispatchKeeps(cfg: Config, s: Scheduler, o: DispatchOracle, round: nat)
    requires Core(cfg, s) && !s.faulted
    ensures !Dispatch(cfg, s, o, round).faulted ==> PassKeeps(cfg, s, Dispatch(cfg, s, o, round))
    decreases |s.readyQueue|, 1
  {
    if s.readyQueue == [] {
      PassReflexive(cfg, s);
    } else {
      var (s1, pick) := Pick(s, o.admit, round, |s.readyQueue|);
      PickKeeps(cfg, s, o.admit, round, |s.readyQueue|);
      if pick.Some? { DispatchChosen(cfg, s, o, round, Requeued(s1, pick), s1, pick.value); }
    }
  }

  lemma {:induction false} DispatchChosen(cfg: Config, s: Scheduler, o: DispatchOracle, round: nat, q: Scheduler,
          s1: Scheduler, scope: ComputeScope)
    requires s.readyQueue != [] && Pick(s, o.admit, round, |s.readyQueue|) == (s1, Some(scope))
    requires PassKeeps(cfg, s, q) && q == Requeued(s1, Some(scope)) && !s1.faulted
    requires s1.IsReady(scope) && s1.DepsComplete(s1.Node(scope)) && |s1.readyQueue| < |s.readyQueue|
    ensures !Dispatch(cfg, s, o, round).faulted ==> PassKeeps(cfg, s, Dispatch(cfg, s, o, round))
    decreases |s.readyQueue|, 0
  {
    hide Dispatches, Absorbs, Wakes, Core;
    assert Core(cfg, q);
    assert Chosen(q, s1, scope);
    var g := s1.nodes[scope];
    var run := s1.runs[g];
    if |cfg.Steps(scope)| <= run.profileStepIndex {
    } else if o.satisfied(scope, round) {
      ShortCircuitKeeps(cfg, q, s1, scope, o.hydrated(scope, round));
      ChosenQueue(cfg, q, s1, scope);
      DispatchRest(cfg, s, o, round + 1, q, ShortCircuit(s1, g, o.hydrated(scope, round)));
    } else if cfg.Steps(scope)[run.profileStepIndex].isInline {
      BeginKeeps(cfg, q, s1, scope, InlineBuild);
      if !s1.WirelessDependency(run) { DispatchRest(cfg, s, o, round + 1, q, Begin(s1, g, InlineBuild)); }
    } else if !cfg.hasPool {
      ChosenQueue(cfg, q, s1, scope);
    } else {
      BeginKeeps(cfg, q, s1, scope, PoolFlush);
      PassTransitive(cfg, s, q, Begin(s1, g, PoolFlush));
    }
  }

  lemma {:induction false} DispatchRest(cfg: Config, s: Scheduler, o: DispatchOracle, round: nat, q: Scheduler,
          s2: Scheduler)
    requires PassKeeps(cfg, s, q) && PassKeeps(cfg, q, s2) && !s2.faulted && |s2.readyQueue| < |s.readyQueue|
    ensures !Dispatch(cfg, s2, o, round).faulted ==> PassKeeps(cfg, s, Dispatch(cfg, s2, o, round))
    decreases |s2.readyQueue|, 2
  {
    DispatchKeeps(cfg, s2, o, round);
    PassTransitive(cfg, s, q, s2);
    if !Dispatch(cfg, s2, o, round).faulted { PassTransitive(cfg, s, s2, Dispatch(cfg, s2, o, round)); }
  }
}
