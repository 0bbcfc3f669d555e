/** From a completed walk to the graph the orchestrator registers. */
module DagPlanner {
  import opened DependencyWalk
  import opened DependencyWalker
  import Scheduler
  import SchedulerSubmit

  /** The compute registry: which analytics can be scheduled, and the scheduling key of each
      analytic at a scope. */
  datatype Registry = Registry(analytics: set<string>, keyOf: Key -> Scheduler.ComputeScope)

  datatype PlanOutcome =
    | Planned(nodes: seq<Scheduler.PlannedNode>)
    | PlanCycle(at: Key)
    | TurnUnavailable(turn: int)
    | InvalidTarget(analyticId: string)
    | NotScheduled(analyticId: string)

  function EdgeOf(ctx: Context, reg: Registry, k: Key, edge: Key, pending: seq<Key>): seq<Scheduler.ComputeScope> {
    if TurnFloor(ctx, k.scope) <= edge.scope.turn && edge in pending then [reg.keyOf(edge)] else []
  }

  /** The edges of one planned node: its above-floor dependencies that are themselves planned. */
  function PlannedEdges(ctx: Context, reg: Registry, k: Key, edges: seq<Key>,
          pending: seq<Key>): seq<Scheduler.ComputeScope>
  {
    if edges == [] then []
    else
      EdgeOf(ctx, reg, k, edges[0], pending) + PlannedEdges(ctx, reg, k, edges[1..], pending)
  }

  lemma {:induction false} PlannedEdgesExact(ctx: Context, reg: Registry, k: Key, edges: seq<Key>, pending: seq<Key>,
          d: Scheduler.ComputeScope)
    ensures d in PlannedEdges(ctx, reg, k, edges, pending) <==>
              exists c :: c in edges && TurnFloor(ctx, k.scope) <= c.scope.turn && c in pending && reg.keyOf(c) == d
    decreases |edges|
  {
    if edges != [] {
      PlannedEdgesExact(ctx, reg, k, edges[1..], pending, d);
      assert edges == [edges[0]] + edges[1..];
      if exists c :: c in edges && TurnFloor(ctx, k.scope) <= c.scope.turn && c in pending && reg.keyOf(c) == d {
        var c :| c in edges && TurnFloor(ctx, k.scope) <= c.scope.turn && c in pending && reg.keyOf(c) == d;
        assert c == edges[0] || c in edges[1..];
      }
    }
  }

  /** Planned node `i` stands for pending scope `i`; its edges are exactly the dependencies of
      that scope that still need work, and each of those is an earlier planned node. */
  ghost predicate PlansNode(ctx: Context, reg: Registry, pending: seq<Key>, nodes: seq<Scheduler.PlannedNode>, i: nat)
    requires i < |pending| && i < |nodes|
  {
    && nodes[i].scope == reg.keyOf(pending[i])
    && (forall d :: d in nodes[i].dependencyScopes <==>
          exists c :: Child(ctx, pending[i], c) && c in pending[..i] && reg.keyOf(c) == d)
  }

  ghost predicate PlansWalk(ctx: Context, reg: Registry, root: Key, force: bool, pending: seq<Key>,
          nodes: seq<Scheduler.PlannedNode>)
  {
    && Complete(ctx, root, force, {}, pending)
    && |nodes| == |pending|
    && forall i: nat {:trigger nodes[i]} :: i < |nodes| ==> PlansNode(ctx, reg, pending, nodes, i)
  }

  lemma EdgesPlanNode(ctx: Context, reg: Registry, root: Key, force: bool, pending: seq<Key>,
          nodes: seq<Scheduler.PlannedNode>, i: nat)
    requires Complete(ctx, root, force, {}, pending) && i < |pending| && i < |nodes|
    requires nodes[i] == Scheduler.PlannedNode(reg.keyOf(pending[i]),
             PlannedEdges(ctx, reg, pending[i], Edges(ctx, pending[i]), pending))
    ensures PlansNode(ctx, reg, pending, nodes, i)
  {
    var k := pending[i];
    forall d ensures d in nodes[i].dependencyScopes <==> exists c ::
        Child(ctx, k, c) && c in pending[..i] && reg.keyOf(c) == d {
      PlannedEdgesExact(ctx, reg, k, Edges(ctx, k), pending, d);
      if d in nodes[i].dependencyScopes {
        var c :| c in Edges(ctx, k) && TurnFloor(ctx, k.scope) <= c.scope.turn && c in pending && reg.keyOf(c) == d;
        assert Child(ctx, k, c);
        WalkIsExact(ctx, root, force, pending, c);
        OrderedAt(ctx, root, force, pending, i, c);
      }
      if exists c :: Child(ctx, k, c) && c in pending[..i] && reg.keyOf(c) == d {
        var c :| Child(ctx, k, c) && c in pending[..i] && reg.keyOf(c) == d;
        assert c in Edges(ctx, k) && c in pending;
      }
    }
  }

  /** In a regular game a planned node's edges are exactly its declared dependencies that are planned
      too, from turn N on where an accelerated start applies and from turn 1 on elsewhere. */
  lemma PlannedEdgesAre(ctx: Context, reg: Registry, root: Key, force: bool, n: int, pending: seq<Key>,
          nodes: seq<Scheduler.PlannedNode>, i: nat, d: Scheduler.ComputeScope)
    requires PlansWalk(ctx, reg, root, force, pending, nodes) && i < |nodes|
    requires Regular(ctx, n) && root.scope.turn in ctx.turns
    ensures d in nodes[i].dependencyScopes <==>
            exists c :: c in Edges(ctx, pending[i]) && (if 0 < n <= root.scope.turn then n else 1) <= c.scope.turn
                        && c in pending && reg.keyOf(c) == d
  {
    var k := pending[i];
    var start := if 0 < n <= root.scope.turn then n else 1;
    assert PlansNode(ctx, reg, pending, nodes, i) && Enters(ctx, root, force, k);
    EnteredFloor(ctx, root, force, n, k);
    hide Complete, Edges, TurnFloor, Regular;
    if exists c :: c in Edges(ctx, k) && start <= c.scope.turn && c in pending && reg.keyOf(c) == d {
      var c :| c in Edges(ctx, k) && start <= c.scope.turn && c in pending && reg.keyOf(c) == d;
      assert Child(ctx, k, c);
      WalkIsExact(ctx, root, force, pending, c);
      OrderedAt(ctx, root, force, pending, i, c);
    }
    if d in nodes[i].dependencyScopes {
      var c :| Child(ctx, k, c) && c in pending[..i] && reg.keyOf(c) == d;
      assert c in Edges(ctx, k) && c in pending;
    }
  }

  /** Plan the graph of one request from the walk, one node a pending scope. */
  method PlanComputeDag(ctx: Context, reg: Registry, key: Key, force: bool)
          returns (out: PlanOutcome, ghost pending: seq<Key>)
    ensures out.Planned? ==> PlansWalk(ctx, reg, key, force, pending, out.nodes)
    ensures out.PlanCycle? ==> HasWorkCycle(ctx, key, force)
    ensures out.Planned? ==> !HasWorkCycle(ctx, key, force)
    ensures out.NotScheduled? ==>
            out.analyticId !in reg.analytics && Complete(ctx, key, force, {}, pending) && exists k ::
            k in pending && k.analyticId == out.analyticId
  {
    var walk := WalkDependencyTree(ctx, key, force);
    pending := [];
    match walk {
      case CycleDetected(at) => return PlanCycle(at), [];
      case TurnNotStored(turn) => return TurnUnavailable(turn), [];
      case BadTarget(a) => return InvalidTarget(a), [];
      case Walked(_, order) =>
        pending := order;
        var nodes: seq<Scheduler.PlannedNode> := [];
        var i := 0;
        while i < |order|
          invariant 0 <= i <= |order| && |nodes| == i
          invariant forall n: nat {:trigger nodes[n]} :: n < i ==> PlansNode(ctx, reg, order, nodes, n)
        {
          var k := order[i];
          if k.analyticId !in reg.analytics {
            assert k in order;
            return NotScheduled(k.analyticId), order;
          }
          var edges := CollectEdges(ctx, reg, k, order);
          ghost var before := nodes;
          nodes := nodes + [Scheduler.PlannedNode(reg.keyOf(k), edges)];
          EdgesPlanNode(ctx, reg, key, force, order, nodes, i);
          forall n: nat | n < i ensures PlansNode(ctx, reg, order, nodes, n) {
            assert before[n] == nodes[n];
            assert PlansNode(ctx, reg, order, before, n);
          }
          i := i + 1;
        }
        forall n: nat | n < |nodes| ensures PlansNode(ctx, reg, order, nodes, n) {}
        hide PlansNode;
        assert PlansWalk(ctx, reg, key, force, order, nodes);
        return Planned(nodes), order;
    }
  }

  lemma FirstPlannedEdge(ctx: Context, reg: Registry, k: Key, edges: seq<Key>, i: nat, pending: seq<Key>)
    requires i < |edges|
    ensures PlannedEdges(ctx, reg, k, edges[i..], pending)
            == EdgeOf(ctx, reg, k, edges[i], pending) + PlannedEdges(ctx, reg, k, edges[i + 1..], pending)
  {
    assert edges[i..][1..] == edges[i + 1..];
  }

  method CollectEdges(ctx: Context, reg: Registry, k: Key, pending: seq<Key>)
          returns (scopes: seq<Scheduler.ComputeScope>)
    ensures scopes == PlannedEdges(ctx, reg, k, Edges(ctx, k), pending)
  {
    hide PlannedEdges, TurnFloor;
    scopes := [];
    var edges := Edges(ctx, k);
    var i := 0;
    NoEdgesLeft(ctx, reg, k, edges, pending);
    while i < |edges|
      invariant 0 <= i <= |edges|
      invariant scopes + PlannedEdges(ctx, reg, k, edges[i..], pending) == PlannedEdges(ctx, reg, k, edges, pending)
    {
      FirstPlannedEdge(ctx, reg, k, edges, i, pending);
      if TurnFloor(ctx, k.scope) <= edges[i].scope.turn && edges[i] in pending {
        scopes := scopes + [reg.keyOf(edges[i])];
      }
      i := i + 1;
    }
  }

  lemma NoEdgesLeft(ctx: Context, reg: Registry, k: Key, edges: seq<Key>, pending: seq<Key>)
    ensures PlannedEdges(ctx, reg, k, edges[|edges|..], pending) == [] && edges[0..] == edges
  {}

  // --- what the orchestrator needs of a plan ------------------------------------------------

  /** When the ensure relation goes down some rank, so do the edges of every plan. */
  lemma PlanFollowsRank(ctx: Context, reg: Registry, root: Key, force: bool, pending: seq<Key>,
          nodes: seq<Scheduler.PlannedNode>,
                        rank: Scheduler.ComputeScope -> nat, i: nat, d: Scheduler.ComputeScope)
    requires PlansWalk(ctx, reg, root, force, pending, nodes) && i < |nodes| && d in nodes[i].dependencyScopes
    requires forall k, c {:trigger Child(ctx, k, c)} :: Child(ctx, k, c) ==> rank(reg.keyOf(c)) < rank(reg.keyOf(k))
    ensures rank(d) < rank(nodes[i].scope)
  {
    assert PlansNode(ctx, reg, pending, nodes, i);
    var c :| Child(ctx, pending[i], c) && c in pending[..i] && reg.keyOf(c) == d;
  }

  /** So the orchestrator may register it: what its safety and progress results ask of a plan
      holds of every graph this planner returns, given steps for the planned scopes. */
  lemma PlannedGraphIsAdmissible(ctx: Context, reg: Registry, root: Key, force: bool, pending: seq<Key>,
          nodes: seq<Scheduler.PlannedNode>,
                                 cfg: Scheduler.Config, req: Scheduler.Request, satisfied: set<Scheduler.ComputeScope>)
    requires PlansWalk(ctx, reg, root, force, pending, nodes)
    requires forall k, c {:trigger Child(ctx, k, c)} :: Child(ctx, k, c) ==>
             cfg.rank(reg.keyOf(c)) < cfg.rank(reg.keyOf(k))
    requires forall p :: p in nodes ==> |cfg.Steps(p.scope)| > 0
    requires Scheduler.EntryIndex(cfg.Steps(req.scope), req.stepKind).Some?
    ensures SchedulerSubmit.PlanOk(cfg, req, Scheduler.Plan(nodes, satisfied))
  {
    forall p | p in nodes ensures SchedulerSubmit.PlannedOk(cfg, req, p) {
      var i: nat :| i < |nodes| && nodes[i] == p;
      forall d | d in p.dependencyScopes ensures cfg.rank(d) < cfg.rank(p.scope) {
        PlanFollowsRank(ctx, reg, root, force, pending, nodes, cfg.rank, i, d);
      }
    }
  }

  /** A plan registers every dependency before its dependent, so no planned node waits for a
      scope that was never planned. */
  lemma PlanIsTopological(ctx: Context, reg: Registry, root: Key, force: bool, pending: seq<Key>,
          nodes: seq<Scheduler.PlannedNode>,
                          i: nat, d: Scheduler.ComputeScope) returns (j: nat)
    requires PlansWalk(ctx, reg, root, force, pending, nodes) && i < |nodes| && d in nodes[i].dependencyScopes
    ensures j < i && nodes[j].scope == d
  {
    assert PlansNode(ctx, reg, pending, nodes, i);
    var c :| Child(ctx, pending[i], c) && c in pending[..i] && reg.keyOf(c) == d;
    j :| 0 <= j < i && pending[j] == c;
    assert PlansNode(ctx, reg, pending, nodes, j);
  }
}
