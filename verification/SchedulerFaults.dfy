/**
When a section of the orchestrator is left by an error: the exact condition for a dispatch pass,
the runs that never meet it, and one that does.
*/
module SchedulerFaults {
  import opened Prelude
  import opened Scheduler
  import opened SchedulerInvariants
  import opened SchedulerPasses
  import opened SchedulerSubmit
  import opened SchedulerEvents
  import opened SchedulerTheorems
  import opened SchedulerDemos

  // --- the condition ------------------------------------------------------------------------

  /** Some dependency of the scope's node is complete but carries no wire. */
  ghost predicate Hollow(s: Scheduler, x: ComputeScope) {
    exists d {:trigger DependsOn(s, x, d)} :: DependsOn(s, x, d) && HollowAt(s, d)
  }

  predicate HollowAt(s: Scheduler, d: ComputeScope) { s.CompleteAt(d) && s.Node(d).resultWire.None? }

  /** A pass may begin the node's current step: it is inline, or there is a pool. */
  predicate StartsHere(cfg: Config, run: NodeRun) {
    && run.profileStepIndex < |cfg.Steps(run.scope)|
    && (cfg.hasPool || cfg.Steps(run.scope)[run.profileStepIndex].isInline)
  }

  /** A pass can come to the `k`th queued node when all its dependencies are complete: each is
      complete already, or comes up before it and can be completed on the way. */
  ghost predicate ComesUp(s: Scheduler, k: nat)
    requires k < |s.readyQueue|
    decreases k
  {
    && s.IsReady(s.readyQueue[k])
    && forall d :: d in s.Node(s.readyQueue[k]).dependencyScopes ==>
         s.CompleteAt(d) || exists j: nat :: j < k && s.readyQueue[j] == d && ComesUp(s, j)
  }

  /** The `k`th queued node can be begun although a wire it needs is missing. */
  ghost predicate Endangers(cfg: Config, s: Scheduler, k: nat) {
    k < |s.readyQueue| && ComesUp(s, k) && Hollow(s, s.readyQueue[k]) && StartsHere(cfg, s.Node(s.readyQueue[k]))
  }

  // --- a pass that faults met the condition -------------------------------------------------

  ghost predicate CameUp(s: Scheduler, p: nat, x: ComputeScope) {
    exists j: nat :: j < p && j < |s.readyQueue| && s.readyQueue[j] == x && ComesUp(s, j)
  }

  /** The part of the queue that a pass which has met the first `p` entries has yet to meet,
      followed by entries that came up and were held back. */
  ghost predicate SweptQueue(s: Scheduler, p: nat, queue: seq<ComputeScope>) {
    && p <= |s.readyQueue| && s.readyQueue[p..] <= queue && NoDup(queue)
    && forall y :: y in queue[|s.readyQueue| - p..] ==> CameUp(s, p, y)
  }

  /** What a pass has made of the nodes so far: ready ones are untouched, and it completes only
      what came up, never without a wire. */
  ghost predicate SweptNodes(s: Scheduler, t: Scheduler, p: nat) {
    && t.nodes == s.nodes && t.faulted == s.faulted
    && (forall y {:trigger t.IsReady(y)} :: t.IsReady(y) ==> s.IsReady(y) && t.Node(y) == s.Node(y))
    && (forall d {:trigger t.CompleteAt(d)} :: t.CompleteAt(d) ==>
          (s.CompleteAt(d) && t.Node(d) == s.Node(d)) || (CameUp(s, p, d) && t.Node(d).resultWire.Some?))
  }

  ghost predicate Swept(s: Scheduler, t: Scheduler, p: nat) {
    SweptQueue(s, p, t.readyQueue) && SweptNodes(s, t, p)
  }

  /** How many entries of the queue a pass has met once it has met one more. */
  function Past(s: Scheduler, p: nat): nat { if p < |s.readyQueue| then p + 1 else p }

  lemma CameUpStays(s: Scheduler, p: nat)
    ensures forall x {:trigger CameUp(s, p, x)} :: CameUp(s, p, x) ==> CameUp(s, Past(s, p), x)
  {
    forall x | CameUp(s, p, x) ensures CameUp(s, Past(s, p), x) {
      var j: nat :| j < p && j < |s.readyQueue| && s.readyQueue[j] == x && ComesUp(s, j);
      assert j < Past(s, p);
    }
  }

  lemma HeadCameUp(s: Scheduler, t: Scheduler, p: nat)
    requires Swept(s, t, p) && t.readyQueue != [] && t.IsReady(t.readyQueue[0])
             && t.DepsComplete(t.Node(t.readyQueue[0]))
    ensures CameUp(s, Past(s, p), t.readyQueue[0])
  {
    var x := t.readyQueue[0];
    if p < |s.readyQueue| {
      assert s.readyQueue[p..][0] == x;
      forall d | d in s.Node(x).dependencyScopes && !s.CompleteAt(d)
        ensures exists j: nat :: j < p && s.readyQueue[j] == d && ComesUp(s, j)
      {
        assert t.CompleteAt(d);
      }
      assert ComesUp(s, p);
    } else {
      assert x in t.readyQueue[0..];
      assert CameUp(s, p, x);
    }
  }

  lemma MetHead(s: Scheduler, p: nat, queue: seq<ComputeScope>)
    requires SweptQueue(s, p, queue) && queue != []
    ensures SweptQueue(s, Past(s, p), queue[1..]) && queue[0] !in queue[1..]
    ensures CameUp(s, Past(s, p), queue[0]) ==> SweptQueue(s, Past(s, p), queue[1..] + [queue[0]])
  {
    CameUpStays(s, p);
    Rotated(queue);
    var p', n := Past(s, p), |s.readyQueue|;
    assert p < n ==> s.readyQueue[p..][1..] == s.readyQueue[p'..] && queue[1..][n - p'..] == queue[n - p..];
    assert p == n ==> queue[n - p..] == queue && queue[1..][n - p'..] == queue[1..];
    forall y | y in queue[1..][n - p'..] ensures CameUp(s, p', y) {
      assert y in queue[n - p..];
      assert CameUp(s, p, y);
    }
    assert (queue[1..] + [queue[0]])[n - p'..] == queue[1..][n - p'..] + [queue[0]];
  }

  lemma NodesStay(s: Scheduler, t: Scheduler, p: nat, t': Scheduler)
    requires SweptNodes(s, t, p) && t'.runs == t.runs && t'.nodes == t.nodes && t'.faulted == t.faulted
    ensures SweptNodes(s, t', Past(s, p))
  {
    CameUpStays(s, p);
    hide CameUp;
    forall y | t'.IsReady(y) ensures s.IsReady(y) && t'.Node(y) == s.Node(y) { assert t.IsReady(y); }
    forall d | t'.CompleteAt(d)
      ensures (s.CompleteAt(d) && t'.Node(d) == s.Node(d)) || (CameUp(s, Past(s, p), d) && t'.Node(d).resultWire.Some?)
    {
      assert t.CompleteAt(d);
    }
  }

  /** A ready node that stops being ready, and is complete only if it came up and has a wire. */
  lemma NodeLeaves(s: Scheduler, t: Scheduler, p: nat, x: ComputeScope, t': Scheduler)
    requires SweptNodes(s, t, p) && t.IsReady(x) && t'.nodes == t.nodes && t'.faulted == t.faulted
    requires t.nodes[x] in t'.runs && t'.runs == t.runs[t.nodes[x] := t'.runs[t.nodes[x]]] && !t'.Node(x).state.Ready?
    requires t'.Node(x).state.Complete? ==> CameUp(s, p, x) && t'.Node(x).resultWire.Some?
    requires forall y :: s.Has(y) && s.nodes[y] == s.nodes[x] ==> y == x
    ensures SweptNodes(s, t', p)
  {
    hide CameUp;
    forall y | t'.IsReady(y) ensures s.IsReady(y) && t'.Node(y) == s.Node(y) { assert t.IsReady(y); }
    forall d | t'.CompleteAt(d)
      ensures (s.CompleteAt(d) && t'.Node(d) == s.Node(d)) || (CameUp(s, p, d) && t'.Node(d).resultWire.Some?)
    {
      if d != x { assert t.CompleteAt(d); }
    }
  }

  /** A node is not ready under two scopes. */
  lemma OneScope(cfg: Config, s: Scheduler, x: ComputeScope)
    requires Core(cfg, s) && s.Has(x)
    ensures s.Node(x).scope == x && forall y :: s.Has(y) && s.nodes[y] == s.nodes[x] ==> y == x
  {
    hide QueueOk, HandlesOk, RunOk, Live;
  }

  /** What one step of a sweep may leave. */
  lemma SweptNext(cfg: Config, s: Scheduler, t: Scheduler, p: nat)
    requires Core(cfg, s) && Swept(s, t, p) && t.readyQueue != []
    ensures Swept(s, TakeHead(t), Past(s, p)) && t.readyQueue[0] !in TakeHead(t).readyQueue
    ensures t.IsReady(t.readyQueue[0]) ==>
              if t.DepsComplete(t.Node(t.readyQueue[0]))
                  then CameUp(s, Past(s, p), t.readyQueue[0]) && Swept(s, RotateHead(t), Past(s, p))
              else Swept(s, DemoteHead(t), Past(s, p))
  {
    var x := t.readyQueue[0];
    MetHead(s, p, t.readyQueue);
    NodesStay(s, t, p, TakeHead(t));
    NodesStay(s, t, p, RotateHead(t));
    if t.IsReady(x) {
      OneScope(cfg, s, x);
      hide SweptNodes, SweptQueue, CameUp, Core;
      if t.DepsComplete(t.Node(x)) { HeadCameUp(s, t, p); }
          else { NodeLeaves(s, TakeHead(t), Past(s, p), x, DemoteHead(t)); }
    }
  }

  lemma PickSkips(t: Scheduler, admit: (ComputeScope, nat) -> bool, round: nat, budget: nat)
    requires budget > 0 && t.readyQueue != [] && !t.IsReady(t.readyQueue[0])
    ensures Pick(t, admit, round, budget) == Pick(TakeHead(t), admit, round, budget - 1)
  {}

  /** A sweep has left this state, and what it picked came up. */
  ghost predicate SweptTo(s: Scheduler, swept: (Scheduler, Option<ComputeScope>), p: nat) {
    && Swept(s, swept.0, p)
    && (swept.1.Some? ==> CameUp(s, p, swept.1.value) && swept.1.value !in swept.0.readyQueue)
  }

  lemma {:induction false} PickSwept(cfg: Config, s: Scheduler, t: Scheduler, p: nat,
          admit: (ComputeScope, nat) -> bool, round: nat, budget: nat)
    returns (p': nat)
    requires Core(cfg, s) && Swept(s, t, p)
    ensures SweptTo(s, Pick(t, admit, round, budget), p')
    decreases budget
  {
    if budget == 0 || t.readyQueue == [] {
      p' := p;
    } else {
      SweptNext(cfg, s, t, p);
      p' := Past(s, p);
      assert SweptTo(s, (TakeHead(t), Some(t.readyQueue[0])), p') <== CameUp(s, p', t.readyQueue[0]);
      hide *;
      if !t.IsReady(t.readyQueue[0]) {
        PickSkips(t, admit, round, budget);
        p' := PickSwept(cfg, s, TakeHead(t), p', admit, round, budget - 1);
      } else {
        PickStep(t, admit, round, budget);
        if !t.DepsComplete(t.Node(t.readyQueue[0])) {
          p' := PickSwept(cfg, s, DemoteHead(t), p', admit, round, budget - 1);
        } else if !admit(t.readyQueue[0], round) {
          p' := PickSwept(cfg, s, RotateHead(t), p', admit, round, budget - 1);
        }
      }
    }
  }

  /** A dispatch pass that is left by an error had an endangered node when it started. */
  lemma {:induction false} FaultWasEndangered(cfg: Config, s: Scheduler, t: Scheduler, p: nat, o: DispatchOracle,
          round: nat)
    requires Core(cfg, s) && !s.faulted && Swept(s, t, p) && Dispatch(cfg, t, o, round).faulted
    ensures exists k: nat :: Endangers(cfg, s, k)
    decreases |t.readyQueue|, 1
  {
    var (t1, pick) := Pick(t, o.admit, round, |t.readyQueue|);
    var p' := PickSwept(cfg, s, t, p, o.admit, round, |t.readyQueue|);
    if pick.Some? {
      hide Pick;
      ChosenWasEndangered(cfg, s, t1, p', pick.value, o, round, |t.readyQueue|);
    }
  }

  lemma {:induction false} ChosenWasEndangered(cfg: Config, s: Scheduler, t: Scheduler, p: nat, x: ComputeScope,
          o: DispatchOracle, round: nat, size: nat)
    requires Core(cfg, s) && !s.faulted && Swept(s, t, p) && CameUp(s, p, x) && x !in t.readyQueue
    requires t.IsReady(x) && t.DepsComplete(t.Node(x)) && |t.readyQueue| < size
    requires var g := t.nodes[x];
             var run := t.runs[g];
             || |cfg.Steps(x)| <= run.profileStepIndex
             || (o.satisfied(x, round) && Dispatch(cfg, ShortCircuit(t, g, o.hydrated(x, round)), o, round + 1).faulted)
             || (StartsHere(cfg, run) && t.WirelessDependency(run))
             || Dispatch(cfg, Begin(t, g, InlineBuild), o, round + 1).faulted
    ensures exists k: nat :: Endangers(cfg, s, k)
    decreases size, 0
  {
    var g := t.nodes[x];
    var run := t.runs[g];
    OneScope(cfg, s, x);
    CoreRun(cfg, s, g);
    assert run == s.runs[g] && run.profileStepIndex < |cfg.Steps(x)|;
    hide Core, RunOk;
    if StartsHere(cfg, run) && t.WirelessDependency(run) {
      WirelessWasHollow(s, t, p, x);
      var j: nat :| j < p && j < |s.readyQueue| && s.readyQueue[j] == x && ComesUp(s, j);
      assert Endangers(cfg, s, j);
    } else if o.satisfied(x, round) && Dispatch(cfg, ShortCircuit(t, g, o.hydrated(x, round)), o, round + 1).faulted {
      ShortCircuited(t, x, o.hydrated(x, round));
      hide ShortCircuit, Dispatch, CameUp;
      var t' := ShortCircuit(t, g, o.hydrated(x, round));
      NodeLeaves(s, t, p, x, t');
      FaultWasEndangered(cfg, s, t', p, o, round + 1);
    } else {
      var t' := Begin(t, g, InlineBuild);
      NodeLeaves(s, t, p, x, t');
      hide Begin, Dispatch, CameUp;
      FaultWasEndangered(cfg, s, t', p, o, round + 1);
    }
  }

  lemma WirelessWasHollow(s: Scheduler, t: Scheduler, p: nat, x: ComputeScope)
    requires SweptNodes(s, t, p) && t.IsReady(x) && t.DepsComplete(t.Node(x)) && t.WirelessDependency(t.Node(x))
    ensures Hollow(s, x)
  {
    var d :| d in t.Node(x).dependencyScopes && (!t.Has(d) || t.Node(d).resultWire.None?);
    assert t.CompleteAt(d);
    assert DependsOn(s, x, d) && HollowAt(s, d);
  }

  lemma ShortCircuited(t: Scheduler, x: ComputeScope, hydrated: Option<Wire>)
    requires t.IsReady(x) && t.Node(x).scope == x && x !in t.readyQueue
    ensures var t' := ShortCircuit(t, t.nodes[x], hydrated);
            && t'.nodes == t.nodes && t'.faulted == t.faulted && t'.readyQueue == t.readyQueue
            && t.nodes[x] in t'.runs && t'.runs == t.runs[t.nodes[x] := t'.runs[t.nodes[x]]]
            && t'.Node(x).state.Complete? && t'.Node(x).resultWire.Some?
  {
  }

  // --- an endangered node makes some pass fault ---------------------------------------------

  /** Every earlier node that can be completed without running is, and `x` is begun. */
  function Passing(x: ComputeScope): DispatchOracle {
    DispatchOracle((y, n) => true, (y, n) => y != x, (y, n) => None)
  }

  /** A pass has met the first `p` entries and completed those that came up. */
  ghost predicate Cleared(s: Scheduler, t: Scheduler, p: nat) {
    && p <= |s.readyQueue| && t.readyQueue == s.readyQueue[p..] && t.nodes == s.nodes && t.faulted == s.faulted
    && (forall j: nat {:trigger s.readyQueue[j]} :: p <= j < |s.readyQueue| ==>
          s.IsReady(s.readyQueue[j]) && t.IsReady(s.readyQueue[j])
              && t.Node(s.readyQueue[j]) == s.Node(s.readyQueue[j]))
    && (forall d {:trigger s.CompleteAt(d)} :: s.CompleteAt(d) ==> t.CompleteAt(d) && t.Node(d) == s.Node(d))
    && (forall j: nat {:trigger ComesUp(s, j)} :: j < p && ComesUp(s, j) ==> t.CompleteAt(s.readyQueue[j]))
  }

  lemma ClearedIsMet(s: Scheduler, t: Scheduler, p: nat)
    requires Cleared(s, t, p) && p < |s.readyQueue| && ComesUp(s, p)
    ensures t.DepsComplete(t.Node(s.readyQueue[p]))
  {
    var x := s.readyQueue[p];
    forall d | d in s.Node(x).dependencyScopes ensures t.CompleteAt(d) {
      if !s.CompleteAt(d) {
        var j: nat :| j < p && s.readyQueue[j] == d && ComesUp(s, j);
      }
    }
  }

  lemma ClearedNext(cfg: Config, s: Scheduler, t: Scheduler, p: nat, t': Scheduler)
    requires Core(cfg, s) && Cleared(s, t, p) && p < |s.readyQueue|
    requires var x := s.readyQueue[p];
             && t'.readyQueue == t.readyQueue[1..] && t'.nodes == t.nodes && t'.faulted == t.faulted
             && t.nodes[x] in t'.runs && t'.runs == t.runs[t.nodes[x] := t'.runs[t.nodes[x]]]
             && (ComesUp(s, p) ==> t'.Node(x).state.Complete?)
    ensures Cleared(s, t', p + 1)
  {
    var x := s.readyQueue[p];
    OneScope(cfg, s, x);
    assert s.IsReady(x) by { assert x in s.readyQueue; }
    assert NoDup(s.readyQueue);
    hide Core;
    assert t.readyQueue[1..] == s.readyQueue[p + 1..];
    forall j: nat | p + 1 <= j < |s.readyQueue|
      ensures t'.IsReady(s.readyQueue[j]) && t'.Node(s.readyQueue[j]) == s.Node(s.readyQueue[j])
    {
      assert Differ(s.readyQueue, p, j);
      assert t.IsReady(s.readyQueue[j]);
    }
    forall d | s.CompleteAt(d) ensures t'.CompleteAt(d) && t'.Node(d) == s.Node(d) { assert t.CompleteAt(d); }
    forall j: nat | j < p + 1 && ComesUp(s, j) ensures t'.CompleteAt(s.readyQueue[j]) {
      if j < p { assert t.CompleteAt(s.readyQueue[j]); }
    }
  }

  /** A node sent back to waiting costs the pass nothing. */
  lemma DemotedHeadSkipped(cfg: Config, t: Scheduler, o: DispatchOracle, round: nat)
    requires t.readyQueue != [] && t.IsReady(t.readyQueue[0]) && !t.DepsComplete(t.Node(t.readyQueue[0])) && !t.faulted
    ensures Dispatch(cfg, t, o, round) == Dispatch(cfg, DemoteHead(t), o, round)
  {
    PickStep(t, o.admit, round, |t.readyQueue|);
    var t' := DemoteHead(t);
    assert Pick(t', o.admit, round, |t.readyQueue| - 1) == Pick(t', o.admit, round, |t'.readyQueue|);
    if t'.readyQueue == [] { assert Pick(t', o.admit, round, 0) == (t', None); }
  }

  lemma ChosenHead(cfg: Config, t: Scheduler, x: ComputeScope, y: ComputeScope, round: nat)
    requires t.readyQueue != [] && t.readyQueue[0] == y && t.IsReady(y) && t.DepsComplete(t.Node(y)) && !t.faulted
    requires t.Node(y).scope == y && t.Node(y).profileStepIndex < |cfg.Steps(y)|
    ensures y != x ==>
            Dispatch(cfg, t, Passing(x), round)
            == Dispatch(cfg, ShortCircuit(TakeHead(t), t.nodes[y], None), Passing(x), round + 1)
    ensures y == x && StartsHere(cfg, t.Node(x)) && t.WirelessDependency(t.Node(x)) ==>
            Dispatch(cfg, t, Passing(x), round).faulted
  {
    PickStep(t, Passing(x).admit, round, |t.readyQueue|);
    hide Pick, ShortCircuit;
    var t1 := TakeHead(t);
    if y == x && t.WirelessDependency(t.Node(x)) {
      var d :| d in t.Node(x).dependencyScopes && (!t.Has(d) || t.Node(d).resultWire.None?);
      assert !t1.Has(d) || t1.Node(d).resultWire.None?;
    }
  }

  lemma HeadIsFirst(s: Scheduler, t: Scheduler, p: nat, k: nat)
    requires Cleared(s, t, p) && NoDup(s.readyQueue) && p <= k < |s.readyQueue|
    ensures t.readyQueue != [] && t.readyQueue[0] == s.readyQueue[p] && s.readyQueue[p] !in t.readyQueue[1..]
    ensures p < k ==> s.readyQueue[p] != s.readyQueue[k]
  {
    assert p < k ==> Differ(s.readyQueue, p, k);
    forall i: nat | i < |t.readyQueue[1..]|
        ensures t.readyQueue[1..][i] != s.readyQueue[p] { assert Differ(s.readyQueue, p, p + 1 + i); }
  }

  lemma {:induction false} EndangeredFaults(cfg: Config, s: Scheduler, t: Scheduler, p: nat, k: nat, round: nat)
    requires Core(cfg, s) && !s.faulted && Cleared(s, t, p) && p <= k && Endangers(cfg, s, k)
    ensures Dispatch(cfg, t, Passing(s.readyQueue[k]), round).faulted
    decreases k - p
  {
    var x, y := s.readyQueue[k], s.readyQueue[p];
    assert s.readyQueue[p..][0] == y;
    assert t.IsReady(y) && t.Node(y) == s.Node(y);
    OneScope(cfg, s, y);
    CoreRun(cfg, s, s.nodes[y]);
    hide Core, RunOk, Dispatch, Swept, Cleared;
    HeadIsFirst(s, t, p, k);
    if p == k {
      ClearedIsMet(s, t, p);
      HollowIsWireless(s, t, p, x);
      ChosenHead(cfg, t, x, y, round);
    } else if t.DepsComplete(t.Node(y)) {
      var t1 := TakeHead(t);
      ChosenHead(cfg, t, x, y, round);
      ShortCircuited(t1, y, None);
      ClearedNext(cfg, s, t, p, ShortCircuit(t1, t.nodes[y], None));
      EndangeredFaults(cfg, s, ShortCircuit(t1, t.nodes[y], None), p + 1, k, round + 1);
    } else {
      if ComesUp(s, p) { ClearedIsMet(s, t, p); }
      DemotedHeadSkipped(cfg, t, Passing(x), round);
      ClearedNext(cfg, s, t, p, DemoteHead(t));
      EndangeredFaults(cfg, s, DemoteHead(t), p + 1, k, round);
    }
  }

  lemma HollowIsWireless(s: Scheduler, t: Scheduler, p: nat, x: ComputeScope)
    requires Cleared(s, t, p) && s.Has(x) && t.Has(x) && t.Node(x) == s.Node(x) && Hollow(s, x)
    ensures t.WirelessDependency(t.Node(x))
  {
    var d :| DependsOn(s, x, d) && HollowAt(s, d);
    assert t.CompleteAt(d);
  }

  /** A dispatch pass can be left by an error, if the gates and the satisfaction probes answer
      accordingly, exactly when it starts with an endangered node. */
  lemma DispatchFaultsIff(cfg: Config, s: Scheduler)
    requires Core(cfg, s) && !s.faulted
    ensures (exists o :: Dispatch(cfg, s, o, 0).faulted) <==> exists k: nat :: Endangers(cfg, s, k)
  {
    if o: DispatchOracle :| Dispatch(cfg, s, o, 0).faulted {
      NothingSwept(cfg, s);
      FaultWasEndangered(cfg, s, s, 0, o, 0);
    }
    if k: nat :| Endangers(cfg, s, k) {
      NothingSwept(cfg, s);
      EndangeredFaults(cfg, s, s, 0, k, 0);
    }
  }

  lemma NothingSwept(cfg: Config, s: Scheduler)
    requires Core(cfg, s)
    ensures Swept(s, s, 0) && Cleared(s, s, 0)
  {
    assert s.readyQueue[0..] == s.readyQueue && s.readyQueue[|s.readyQueue|..] == [];
    forall j: nat | j < |s.readyQueue| ensures s.IsReady(s.readyQueue[j]) { assert s.readyQueue[j] in s.readyQueue; }
  }

  /** After a pass over all nodes every ready node comes up, so the order of the queue and the
      other nodes in it do not matter. */
  lemma RefreshedPassFaultsIff(cfg: Config, s: Scheduler)
    requires Core(cfg, s) && !s.faulted && forall x :: s.IsReady(x) ==> s.DepsComplete(s.Node(x))
    ensures (exists o :: Dispatch(cfg, s, o, 0).faulted) <==>
            exists x :: s.IsReady(x) && s.WirelessDependency(s.Node(x)) && StartsHere(cfg, s.Node(x))
  {
    DispatchFaultsIff(cfg, s);
    hide Dispatch;
    if k: nat :| Endangers(cfg, s, k) {
      var x := s.readyQueue[k];
      var d :| DependsOn(s, x, d) && HollowAt(s, d);
      assert s.IsReady(x) && s.WirelessDependency(s.Node(x));
    }
    if x :| s.IsReady(x) && s.WirelessDependency(s.Node(x)) && StartsHere(cfg, s.Node(x)) {
      var d :| d in s.Node(x).dependencyScopes && (!s.Has(d) || s.Node(d).resultWire.None?);
      assert s.CompleteAt(d) && DependsOn(s, x, d) && HollowAt(s, d);
      assert x in s.readyQueue;
      var k: nat :| k < |s.readyQueue| && s.readyQueue[k] == x;
      assert ComesUp(s, k) && Endangers(cfg, s, k);
    }
  }


  // --- events -------------------------------------------------------------------------------

  /** The state from which the event's dispatch pass starts, if the event has one. */
  ghost function PassStart(cfg: Config, s: Scheduler, e: Event): Option<Scheduler> {
    match e
    case Submits(req, plan, _) => Some(SubmitPrepare(cfg, s, req, plan))
    case Ensures(req, plan, _) =>
      var hollow := s.Has(req.scope) && s.Node(req.scope).IsTerminal() && !req.forceFresh;
      Some(SubmitPrepare(cfg, if hollow then Replace(s, req.scope) else s, req, plan))
    case WakesParked(req, plan, _) =>
      if s.Has(req.scope) && s.Node(req.scope).state.Parked? then Some(SubmitPrepare(cfg, s, req, plan)) else None
    case Dispatches(_) => Some(s)
    case RunsIdle(_) => Some(RefreshEach(s, s.order, None))
    case RunsCallback(DispatchReady, _, _) => Some(Consume(s, DispatchReady))
    case RunsCallback(ForceFresh(x, band, kind, bundle), plan, _) =>
      var cb := ForceFresh(x, band, kind, bundle);
      Some(Consume(SubmitPrepare(cfg, s, CallbackRequest(cb), plan), cb))
    case _ => None
  }

  /** The same event with other answers of the gates and probes in its pass. */
  function Answered(e: Event, o: DispatchOracle): Event {
    match e
    case Submits(req, plan, _) => Submits(req, plan, o)
    case Ensures(req, plan, _) => Ensures(req, plan, o)
    case WakesParked(req, plan, _) => WakesParked(req, plan, o)
    case Dispatches(_) => Dispatches(o)
    case RunsIdle(_) => RunsIdle(o)
    case RunsCallback(cb, plan, _) => RunsCallback(cb, plan, o)
    case _ => e
  }

  function OracleOf(e: Event): DispatchOracle {
    match e
    case Submits(_, _, o) => o
    case Ensures(_, _, o) => o
    case WakesParked(_, _, o) => o
    case Dispatches(o) => o
    case RunsIdle(o) => o
    case RunsCallback(_, _, o) => o
    case _ => OPEN
  }

  lemma PassEnds(cfg: Config, s: Scheduler, e: Event)
    requires Possible(s, e) && PassStart(cfg, s, e).Some?
    ensures Apply(cfg, s, e) == Dispatch(cfg, PassStart(cfg, s, e).value, OracleOf(e), 0)
  {
    hide SubmitPrepare, Dispatch, Replace, RefreshEach;
  }

  lemma AnsweredPass(cfg: Config, s: Scheduler, e: Event, o: DispatchOracle)
    requires Possible(s, e)
    ensures Possible(s, Answered(e, o)) && PassStart(cfg, s, Answered(e, o)) == PassStart(cfg, s, e)
    ensures PassStart(cfg, s, e).Some? ==> OracleOf(Answered(e, o)) == o
    ensures Disciplined(cfg, s, e) ==> Disciplined(cfg, s, Answered(e, o))
  {
    hide SubmitPrepare, Replace, RefreshEach, PlanOk;
  }

  lemma PassStartIsCore(cfg: Config, s: Scheduler, e: Event)
    requires Inv(cfg, s) && !s.faulted && Possible(s, e) && Disciplined(cfg, s, e) && PassStart(cfg, s, e).Some?
    ensures Core(cfg, PassStart(cfg, s, e).value) && !PassStart(cfg, s, e).value.faulted
  {
    InvIsCoreAndWakes(cfg, s);
    hide Inv, Core, Wakes, SubmitPrepare, Replace, RefreshEach, PlanOk, Consume;
    match e {
      case Submits(req, plan, _) => SubmitPrepareKeeps(cfg, s, req, plan);
      case Ensures(req, plan, _) =>
        if s.Has(req.scope) && s.Node(req.scope).IsTerminal() && !req.forceFresh {
          ReplaceKeeps(cfg, s, req.scope);
          SubmitPrepareKeeps(cfg, Replace(s, req.scope), req, plan);
        } else {
          SubmitPrepareKeeps(cfg, s, req, plan);
        }
      case WakesParked(req, plan, _) => SubmitPrepareKeeps(cfg, s, req, plan);
      case Dispatches(_) =>
      case RunsIdle(_) => RefreshEachKeeps(cfg, s, s.order, None);
      case RunsCallback(cb, plan, _) =>
        if cb.ForceFresh? {
          SubmitPrepareKeeps(cfg, s, CallbackRequest(cb), plan);
          FewerCallbacks(cfg, SubmitPrepare(cfg, s, CallbackRequest(cb), plan), cb);
        } else {
          FewerCallbacks(cfg, s, cb);
        }
    }
  }

  lemma FewerCallbacks(cfg: Config, s: Scheduler, cb: Callback)
    requires Core(cfg, s)
    ensures Core(cfg, Consume(s, cb)) && Consume(s, cb).faulted == s.faulted
  {
    var s' := Consume(s, cb);
    forall g | g in s'.runs ensures RunOk(cfg, s', g) {
      assert RunOk(cfg, s, g);
      SameRunOk(cfg, s, s', g);
    }
    assert TableOk(s') by {
      forall g | g in s'.runs && !s'.runs[g].IsTerminal() ensures Live(s', g) { assert Live(s, g); }
    }
    assert QueueOk(s') by {
      forall x ensures x in s'.readyQueue <==> s'.IsReady(x) { assert x in s.readyQueue <==> s.IsReady(x); }
    }
    forall h | h in s'.handles ensures HandleOk(s', h) { assert HandleOk(s, h); }
  }

  lemma NoPassNoFault(cfg: Config, s: Scheduler, e: Event)
    requires Inv(cfg, s) && !s.faulted && Possible(s, e) && Disciplined(cfg, s, e) && PassStart(cfg, s, e).None?
    ensures !Apply(cfg, s, e).faulted
  {
    InvIsCoreAndWakes(cfg, s);
    hide Inv, Core, Wakes, Apply, EventKeeps;
    if e.SealsInline? || e.BuildRaises? || e.InlineEnds? || e.SealsPool? || e.HandOffRaises? {
      RunWorkKeeps(cfg, s, e);
    } else if e.SoftWaits? || e.Defers? || e.PersistChecks? || e.PersistWrites? || e.PersistRaises?
        || e.PersistDefers? || e.PersistFinishes? {
      PostLockKeeps(cfg, s, e);
    } else if e.PoolReports? {
      PoolReportKeeps(cfg, s, e);
    } else if e.Aborts? {
      AbortIs(cfg, s, e);
      AbortEventKeeps(cfg, s, e.scope, e.isAbort, e.expected);
    } else {
      QuietCallerNeverFaults(cfg, s, e);
    }
  }

  lemma QuietCallerNeverFaults(cfg: Config, s: Scheduler, e: Event)
    requires Inv(cfg, s) && !s.faulted && Possible(s, e) && PassStart(cfg, s, e).None?
    requires e.WakesParked? || e.PlanningRaises? || e.Wipes? || (e.RunsCallback? && e.cb.DependencyTerminal?)
    ensures !Apply(cfg, s, e).faulted
  {
    InvIsCoreAndWakes(cfg, s);
    if e.RunsCallback? { DependencyTerminalRuns(cfg, s, e.cb.completed, e.plan, e.oracle); }
    hide Inv, Core, Wakes, RefreshEach;
  }

  /** An event can be left by an error, whatever its pass is answered, exactly when its pass
      starts with an endangered node. */
  lemma EventFaultsIff(cfg: Config, s: Scheduler, e: Event)
    requires Inv(cfg, s) && !s.faulted && Possible(s, e) && Disciplined(cfg, s, e)
    ensures (exists o :: Possible(s, Answered(e, o)) && Apply(cfg, s, Answered(e, o)).faulted) <==>
            PassStart(cfg, s, e).Some? && exists k: nat :: Endangers(cfg, PassStart(cfg, s, e).value, k)
  {
    hide Inv, Possible, Disciplined, Apply, PassStart, Dispatch, Core, Answered, OracleOf, Endangers;
    forall o ensures Possible(s, Answered(e, o)) && Disciplined(cfg, s, Answered(e, o))
        && PassStart(cfg, s, Answered(e, o)) == PassStart(cfg, s, e) {
      AnsweredPass(cfg, s, e, o);
    }
    if PassStart(cfg, s, e).Some? {
      var t := PassStart(cfg, s, e).value;
      PassStartIsCore(cfg, s, e);
      DispatchFaultsIff(cfg, t);
      forall o ensures Apply(cfg, s, Answered(e, o)) == Dispatch(cfg, t, o, 0) {
        AnsweredPass(cfg, s, e, o);
        PassEnds(cfg, s, Answered(e, o));
      }
      if o :| Dispatch(cfg, t, o, 0).faulted { assert Apply(cfg, s, Answered(e, o)).faulted; }
      if o :| Possible(s, Answered(e, o)) && Apply(cfg, s, Answered(e, o)).faulted {
        NothingSwept(cfg, t);
        FaultWasEndangered(cfg, t, t, 0, o, 0);
      }
    } else {
      forall o ensures !Apply(cfg, s, Answered(e, o)).faulted { NoPassNoFault(cfg, s, Answered(e, o)); }
    }
  }

  // --- runs ---------------------------------------------------------------------------------

  /** Some node has an edge to a scope whose node is a placeholder. */
  ghost predicate Hangs(s: Scheduler) {
    exists x, d {:trigger DependsOn(s, x, d)} :: DependsOn(s, x, d) && PlaceholderAt(s, d)
  }

  ghost predicate PlaceholderAt(s: Scheduler, d: ComputeScope) { s.Has(d) && Placeholder(s.Node(d)) }

  /** Only a placeholder is complete without a wire. */
  lemma EndangeredHangs(cfg: Config, s: Scheduler, k: nat)
    requires Core(cfg, s) && Endangers(cfg, s, k)
    ensures Hangs(s)
  {
    var x := s.readyQueue[k];
    var d :| DependsOn(s, x, d) && HollowAt(s, d);
    CoreRun(cfg, s, s.nodes[d]);
    assert DependsOn(s, x, d) && PlaceholderAt(s, d);
  }

  ghost predicate SameEdges(s: Scheduler, s': Scheduler, g: RunId)
    requires g in s.runs
  {
    && g in s'.runs && SamePlan(s.runs[g], s'.runs[g])
    && (s.runs[g].IsTerminal() ==> s'.runs[g] == s.runs[g])
  }

  /** A pass, faulted or not, changes no edge, no table entry and no terminal node. */
  ghost predicate EdgesStay(s: Scheduler, s': Scheduler) {
    s'.nodes == s.nodes && forall g {:trigger SameEdges(s, s', g)} :: g in s.runs ==> SameEdges(s, s', g)
  }

  lemma EdgesStayTransitive(s: Scheduler, s1: Scheduler, s2: Scheduler)
    requires EdgesStay(s, s1) && EdgesStay(s1, s2)
    ensures EdgesStay(s, s2)
  {
    forall g | g in s.runs ensures SameEdges(s, s2, g) { assert SameEdges(s, s1, g) && SameEdges(s1, s2, g); }
  }

  lemma {:induction false} PickKeepsEdges(s: Scheduler, admit: (ComputeScope, nat) -> bool, round: nat, budget: nat)
    ensures EdgesStay(s, Pick(s, admit, round, budget).0)
    decreases budget
  {
    if budget != 0 && s.readyQueue != [] {
      var x := s.readyQueue[0];
      var tail := TakeHead(s);
      var next := if !s.IsReady(x) then tail else if !s.DepsComplete(s.Node(x)) then DemoteHead(s) else RotateHead(s);
      assert EdgesStay(s, next) && EdgesStay(s, tail);
      if s.IsReady(x) { PickStep(s, admit, round, budget); }
      assert !s.IsReady(x) ==> Pick(s, admit, round, budget) == Pick(tail, admit, round, budget - 1);
      hide Pick, EdgesStay, DemoteHead, RotateHead, TakeHead;
      if !s.IsReady(x) || !s.DepsComplete(s.Node(x)) || !admit(x, round) {
        PickKeepsEdges(next, admit, round, budget - 1);
        EdgesStayTransitive(s, next, Pick(next, admit, round, budget - 1).0);
      }
    }
  }

  lemma ShortCircuitKeepsEdges(s: Scheduler, x: ComputeScope, hydrated: Option<Wire>)
    requires s.IsReady(x)
    ensures EdgesStay(s, ShortCircuit(s, s.nodes[x], hydrated))
  {}

  lemma BeginKeepsEdges(s: Scheduler, x: ComputeScope, task: Task)
    requires s.IsReady(x)
    ensures EdgesStay(s, Begin(s, s.nodes[x], task)) && EdgesStay(s, Begin(s, s.nodes[x], task).(faulted := true))
    ensures EdgesStay(s, s.(faulted := true)) && EdgesStay(s, Enqueue(s, x))
  {}

  /** How a pass goes on, or ends, after its first choice; only a satisfied node is cut short. */
  lemma DispatchStep(cfg: Config, s: Scheduler, o: DispatchOracle, round: nat, s1: Scheduler, x: ComputeScope)
    requires s.readyQueue != [] && !s.faulted && Pick(s, o.admit, round, |s.readyQueue|) == (s1, Some(x))
             && s1.IsReady(x)
    ensures var g := s1.nodes[x];
            var s' := Dispatch(cfg, s, o, round);
            if |cfg.Steps(x)| <= s1.runs[g].profileStepIndex then s' == s1.(faulted := true)
            else if o.satisfied(x, round) then
              s' == Dispatch(cfg, ShortCircuit(s1, g, o.hydrated(x, round)), o, round + 1)
            else if cfg.Steps(x)[s1.runs[g].profileStepIndex].isInline then
              || s' == Dispatch(cfg, Begin(s1, g, InlineBuild), o, round + 1)
              || s' == Begin(s1, g, InlineBuild).(faulted := true)
            else if !cfg.hasPool then s' == Enqueue(s1, x)
            else s' == Begin(s1, g, PoolFlush) || s' == Begin(s1, g, PoolFlush).(faulted := true)
  {
    hide Pick, ShortCircuit, Begin, Enqueue;
  }

  lemma {:induction false} DispatchKeepsEdges(cfg: Config, s: Scheduler, o: DispatchOracle, round: nat)
    ensures EdgesStay(s, Dispatch(cfg, s, o, round))
    decreases |s.readyQueue|
  {
    if s.readyQueue != [] && !s.faulted {
      var (s1, pick) := Pick(s, o.admit, round, |s.readyQueue|);
      PickKeepsEdges(s, o.admit, round, |s.readyQueue|);
      if pick.Some? {
        hide EdgesStay, Pick, Dispatch;
        var x := pick.value;
        var g := s1.nodes[x];
        var done, begun := ShortCircuit(s1, g, o.hydrated(x, round)), Begin(s1, g, InlineBuild);
        assert |done.readyQueue| <= |s1.readyQueue| && |begun.readyQueue| == |s1.readyQueue|;
        DispatchStep(cfg, s, o, round, s1, x);
        ShortCircuitKeepsEdges(s1, x, o.hydrated(x, round));
        BeginKeepsEdges(s1, x, InlineBuild);
        BeginKeepsEdges(s1, x, PoolFlush);
        hide ShortCircuit, Begin, Enqueue;
        DispatchKeepsEdges(cfg, done, o, round + 1);
        EdgesStayTransitive(s1, done, Dispatch(cfg, done, o, round + 1));
        DispatchKeepsEdges(cfg, begun, o, round + 1);
        EdgesStayTransitive(s1, begun, Dispatch(cfg, begun, o, round + 1));
        EdgesStayTransitive(s, s1, Dispatch(cfg, s, o, round));
      }
    }
  }

  lemma HangsOn(s: Scheduler, s': Scheduler)
    requires Hangs(s) && EdgesStay(s, s')
    ensures Hangs(s')
  {
    var x, d :| DependsOn(s, x, d) && PlaceholderAt(s, d);
    assert SameEdges(s, s', s.nodes[x]) && SameEdges(s, s', s.nodes[d]);
    assert DependsOn(s', x, d) && PlaceholderAt(s', d);
  }

  /** An event that is left by an error leaves a node with an edge to a placeholder. */
  lemma FaultHangs(cfg: Config, s: Scheduler, e: Event)
    requires Inv(cfg, s) && !s.faulted && Possible(s, e) && Disciplined(cfg, s, e) && Apply(cfg, s, e).faulted
    ensures Hangs(Apply(cfg, s, e))
  {
    hide Inv, Possible, Disciplined, Apply, PassStart, Dispatch, Core, Endangers, Hangs;
    if PassStart(cfg, s, e).None? {
      NoPassNoFault(cfg, s, e);
    } else {
      var t, o := PassStart(cfg, s, e).value, OracleOf(e);
      PassStartIsCore(cfg, s, e);
      PassEnds(cfg, s, e);
      NothingSwept(cfg, t);
      FaultWasEndangered(cfg, t, t, 0, o, 0);
      var k: nat :| Endangers(cfg, t, k);
      EndangeredHangs(cfg, t, k);
      DispatchKeepsEdges(cfg, t, o, 0);
      HangsOn(t, Dispatch(cfg, t, o, 0));
    }
  }

  /** What is left to assume: the environment is disciplined and no edge names a scope whose
      node is a placeholder. */
  ghost predicate HangFree(cfg: Config, states: seq<Scheduler>, events: seq<Event>) {
    && IsTrace(cfg, states, events)
    && (forall i {:trigger events[i]} :: 0 <= i < |events| ==> Disciplined(cfg, states[i], events[i]))
    && (forall i {:trigger states[i]} :: 0 <= i < |states| ==> !Hangs(states[i]))
  }

  lemma {:induction false} HangFreeStep(cfg: Config, states: seq<Scheduler>, events: seq<Event>, i: nat)
    requires HangFree(cfg, states, events) && i < |states|
    ensures Inv(cfg, states[i]) && !states[i].faulted
  {
    if i == 0 {
      InitialOk(cfg);
    } else {
      assert events[i - 1] == events[i - 1] && states[i] == Apply(cfg, states[i - 1], events[i - 1]);
      hide Inv, Possible, Disciplined, Apply, Hangs, Guarantees;
      HangFreeStep(cfg, states, events, i - 1);
      if states[i].faulted { FaultHangs(cfg, states[i - 1], events[i - 1]); }
      EachEventKeeps(cfg, states[i - 1], events[i - 1]);
    }
  }

  /** Such a trace is never left by an error, so it is a run and all results about runs hold. */
  lemma HangFreeTraceIsRun(cfg: Config, states: seq<Scheduler>, events: seq<Event>)
    requires HangFree(cfg, states, events)
    ensures IsRun(cfg, states, events)
  {
    hide Possible, Disciplined, Apply, Hangs, Inv;
    forall i: nat | i < |states| ensures !states[i].faulted { HangFreeStep(cfg, states, events, i); }
  }

  // --- registration -------------------------------------------------------------------------

  /** Run identities in the table are ones that were handed out. */
  ghost predicate Numbered(s: Scheduler) {
    forall x {:trigger s.nodes[x]} :: x in s.nodes ==> s.nodes[x] in s.runs && s.nodes[x] < s.nextRun
  }

  /** The scope has a node that registration will not drop. */
  predicate Kept(s: Scheduler, x: ComputeScope, satisfied: set<ComputeScope>) {
    x in s.nodes && !(s.Has(x) && s.Node(x).IsTerminal() && x !in satisfied)
  }

  lemma ReplaceNumbered(s: Scheduler, x: ComputeScope, y: ComputeScope, satisfied: set<ComputeScope>)
    requires Numbered(s) && s.Has(x) && s.Node(x).IsTerminal() && x !in satisfied
    ensures Numbered(Replace(s, x)) && x !in Replace(s, x).nodes && Replace(s, x).faulted == s.faulted
    ensures Kept(Replace(s, x), y, satisfied) <==> Kept(s, y, satisfied)
  {}

  lemma FreshNumbered(s: Scheduler, run: NodeRun, y: ComputeScope, satisfied: set<ComputeScope>)
    requires Numbered(s) && run.state.WaitingDeps?
    ensures Numbered(FreshRun(s, run)) && FreshRun(s, run).faulted == s.faulted
    ensures Kept(FreshRun(s, run), run.scope, satisfied)
    ensures y != run.scope ==> (Kept(FreshRun(s, run), y, satisfied) <==> Kept(s, y, satisfied))
  {}

  lemma RegisterRaisesIff(cfg: Config, s: Scheduler, p: PlannedNode, req: Request, satisfied: set<ComputeScope>)
    requires Numbered(s) && !s.faulted
    ensures var s' := Register(cfg, s, p, req, satisfied);
            && Numbered(s')
            && (s'.faulted <==>
                 p.scope == req.scope && EntryIndex(cfg.Steps(req.scope), req.stepKind).None?
                 && !Kept(s, req.scope, satisfied))
            && (p.scope != req.scope ==> (Kept(s', req.scope, satisfied) <==> Kept(s, req.scope, satisfied)))
            && (p.scope == req.scope && !s'.faulted ==> Kept(s', req.scope, satisfied))
  {
    assert EntryIndex(cfg.Steps(p.scope), None) == Some(0);
    var drop := s.Has(p.scope) && s.Node(p.scope).IsTerminal() && p.scope !in satisfied;
    var s1 := if drop then Replace(s, p.scope) else s;
    if drop { ReplaceNumbered(s, p.scope, req.scope, satisfied); }
    var entry := EntryIndex(cfg.Steps(p.scope), if p.scope == req.scope then req.stepKind else None);
    if entry.Some? { FreshNumbered(s1, NewRun(p, WaitingDeps, entry.value, req.band, req.bundle), req.scope,
        satisfied); }
    hide EntryIndex, FreshRun, Replace;
  }

  /** Registration raises exactly when the plan holds the root, the analytic has no step of the
      requested kind and the table holds no node of the root that is kept. */
  lemma {:induction false} RegistrationRaisesIff(cfg: Config, s: Scheduler, planned: seq<PlannedNode>, req: Request,
          satisfied: set<ComputeScope>)
    requires Numbered(s) && !s.faulted
    ensures RegisterAll(cfg, s, planned, req, satisfied).faulted <==>
            && (exists p :: p in planned && p.scope == req.scope)
            && EntryIndex(cfg.Steps(req.scope), req.stepKind).None? && !Kept(s, req.scope, satisfied)
    decreases |planned|
  {
    if planned != [] {
      var s1 := Register(cfg, s, planned[0], req, satisfied);
      RegisterRaisesIff(cfg, s, planned[0], req, satisfied);
      hide Register, Numbered, Kept, EntryIndex;
      assert planned == [planned[0]] + planned[1..];
      assert s1.faulted ==> RegisterAll(cfg, s1, planned[1..], req, satisfied) == s1;
      if !s1.faulted { RegistrationRaisesIff(cfg, s1, planned[1..], req, satisfied); }
    }
  }

  /** A trace that ends in the internal error: a satisfied root becomes a placeholder, a later
      plan finds the same scope unsatisfied while the persistence policy still calls it
      satisfied, so the placeholder stays and its new dependent cannot read a wire from it. */
  lemma PlaceholderDependencyFaults() returns (states: seq<Scheduler>, events: seq<Event>)
    ensures IsTrace(SingleStep(false), states, events) && |events| == 2
    ensures !states[1].faulted && states[1].CompleteAt(1) && Placeholder(states[1].Node(1))
    ensures Disciplined(SingleStep(false), states[0], events[0]) && Disciplined(SingleStep(false), states[1], events[1])
    ensures states[2].faulted
  {
    var cfg := SingleStep(false);
    var first, second := Plan([], {}), SECOND;
    var s1 := FreshRun(INITIAL, PlannedRun(1, [], Complete));
    PlaceholderSubmits(cfg, first);
    SubmitEffect(cfg, INITIAL, Ask(1, false), first);
    assert s1.CompleteAt(1) && Placeholder(s1.Node(1));
    PlaceholderPlansOk(cfg, first, second);
    hide FreshRun, Submit, Possible, Apply, PlanOk, PlannedRun;
    DependentFaults(cfg, s1);
    SubmitEffect(cfg, s1, Ask(2, false), second);
    var s2 := Submit(cfg, s1, Ask(2, false), second, OPEN);
    var e0, e1 := Submits(Ask(1, false), first, OPEN), Submits(Ask(2, false), second, OPEN);
    assert Disciplined(cfg, INITIAL, e0) && Disciplined(cfg, s1, e1);
    hide *;
    states, events := TwoEvents(cfg, e0, s1, e1, s2);
  }

  lemma PlaceholderPlansOk(cfg: Config, first: Plan, second: Plan)
    requires cfg == SingleStep(false) && first == Plan([], {}) && second == SECOND
    ensures PlanOk(cfg, Ask(1, false), first) && PlanOk(cfg, Ask(2, false), second)
  {}

  lemma TwoEvents(cfg: Config, e0: Event, s1: Scheduler, e1: Event, s2: Scheduler)
    returns (states: seq<Scheduler>, events: seq<Event>)
    requires Possible(INITIAL, e0) && s1 == Apply(cfg, INITIAL, e0)
    requires Possible(s1, e1) && s2 == Apply(cfg, s1, e1)
    ensures IsTrace(cfg, states, events) && states == [INITIAL, s1, s2] && events == [e0, e1]
  {
    hide Possible, Apply;
    states, events := [INITIAL], [];
    ExtendTrace(cfg, states, events, e0);
    states, events := [INITIAL, s1], [e0];
    ExtendTrace(cfg, states, events, e1);
    states, events := [INITIAL, s1, s2], [e0, e1];
  }

  lemma PlaceholderSubmits(cfg: Config, plan: Plan)
    requires cfg == SingleStep(false) && plan == Plan([], {})
    ensures Submit(cfg, INITIAL, Ask(1, false), plan, OPEN) == FreshRun(INITIAL, PlannedRun(1, [], Complete))
  {
    var s1 := FreshRun(INITIAL, PlannedRun(1, [], Complete));
    assert RegisterAll(cfg, INITIAL, [], Ask(1, false), {}) == INITIAL;
    assert PlaceholderRoot(INITIAL, Ask(1, false)) == s1;
    assert RefreshEach(s1, [1], None) == s1 by {
      assert [1][1..] == [] && RefreshEach(s1, [], None) == s1;
      assert Refresh(s1, 0) == s1;
    }
    assert s1.order == [1];
    assert SubmitPrepare(cfg, INITIAL, Ask(1, false), plan) == s1;
    assert Dispatch(cfg, s1, OPEN, 0) == s1;
  }

  const SECOND := Plan([PlannedNode(1, []), PlannedNode(2, [1])], {1})

  lemma DependentRegisters(cfg: Config, s: Scheduler)
    requires cfg == SingleStep(false) && s == FreshRun(INITIAL, PlannedRun(1, [], Complete))
    ensures RegisterAll(cfg, s, SECOND.nodes, Ask(2, false), {1}) == FreshRun(s, PlannedRun(2, [1], WaitingDeps))
  {
    var req, n := Ask(2, false), SECOND.nodes;
    var s2 := FreshRun(s, PlannedRun(2, [1], WaitingDeps));
    assert n[1..] == [PlannedNode(2, [1])] && n[1..][1..] == [];
    assert Register(cfg, s, n[0], req, {1}) == s;
    assert Register(cfg, s, n[1], req, {1}) == s2;
    assert RegisterAll(cfg, s2, [], req, {1}) == s2;
    assert RegisterAll(cfg, s, n[1..], req, {1}) == s2;
  }

  lemma DependentPlans(cfg: Config, s: Scheduler)
    requires cfg == SingleStep(false) && s == FreshRun(INITIAL, PlannedRun(1, [], Complete))
    ensures SubmitPrepare(cfg, s, Ask(2, false), SECOND) == Promote(FreshRun(s, PlannedRun(2, [1], WaitingDeps)), 1)
  {
    var s2 := FreshRun(s, PlannedRun(2, [1], WaitingDeps));
    DependentRegisters(cfg, s);
    DependentPromoted(s2);
    assert s2.order == [1, 2] && !s2.faulted && PlaceholderRoot(s2, Ask(2, false)) == s2;
    hide RegisterAll, RefreshEach, PlaceholderRoot, Promote;
  }

  lemma DependentFaults(cfg: Config, s: Scheduler)
    requires cfg == SingleStep(false) && s == FreshRun(INITIAL, PlannedRun(1, [], Complete))
    ensures Submit(cfg, s, Ask(2, false), SECOND, OPEN).faulted
  {
    DependentPlans(cfg, s);
    var s3 := Promote(FreshRun(s, PlannedRun(2, [1], WaitingDeps)), 1);
    hide SubmitPrepare;
    var s4 := s3.(readyQueue := []);
    assert s3.readyQueue == [2] && s3.IsReady(2) && s3.CompleteAt(1);
    assert Pick(s3, OPEN.admit, 0, 1) == (s4, Some(2)) by { assert [2][1..] == []; }
    assert s4.WirelessDependency(s4.runs[1]) by {
      assert 1 in s4.runs[1].dependencyScopes && s4.Node(1).resultWire.None?;
    }
    hide Pick;
    assert Dispatch(cfg, s3, OPEN, 0).faulted;
  }

  lemma DependentPromoted(s: Scheduler)
    requires s == FreshRun(FreshRun(INITIAL, PlannedRun(1, [], Complete)), PlannedRun(2, [1], WaitingDeps))
    ensures RefreshEach(s, [1, 2], None) == Promote(s, 1)
  {
    assert [1, 2][1..] == [2] && [2][1..] == [];
    assert Refresh(s, 0) == s;
    assert FailedDependencyError(s, [1]) == None by { assert [1][1..] == [] && FailedDependencyError(s, []) == None; }
    assert s.CompleteAt(1);
    assert Refresh(s, 1) == Promote(s, 1);
    hide Refresh;
    assert RefreshEach(Promote(s, 1), [], None) == Promote(s, 1);
    assert RefreshEach(s, [2], None) == Promote(s, 1);
  }
}
