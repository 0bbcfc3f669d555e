/** The recursive walk itself, with its shared visiting set, and what its outcome means. */
module DependencyWalker {
  import opened Prelude
  import opened DependencyWalk

  /** The mutable set of scopes on the current path, shared by all recursive calls. */
  class Visiting {
    var keys: set<Key>

    constructor ()
      ensures keys == {}
    {
      keys := {};
    }
  }

  // --- the meaning of an outcome ------------------------------------------------------------

  ghost predicate ClosesCycle(visiting: set<Key>, path: seq<Key>) {
    path != [] && (path[|path| - 1] in visiting || exists i: nat :: i < |path| - 1 && path[i] == path[|path| - 1])
  }

  ghost predicate CycleFound(ctx: Context, root: Key, force: bool, visiting: set<Key>, at: Key) {
    exists path :: WorkPath(ctx, root, force, path) && ClosesCycle(visiting, path) && path[|path| - 1] == at
  }

  /** Every scope of the path after the root is at a stored turn. */
  ghost predicate StoredPath(ctx: Context, root: Key, force: bool, path: seq<Key>) {
    && WorkPath(ctx, root, force, path)
    && (forall i: nat {:trigger path[i]} :: 0 < i < |path| ==> path[i].scope.turn in ctx.turns)
  }

  /** The walk can get to the scope: it is reached through scopes at stored turns. */
  ghost predicate Enters(ctx: Context, root: Key, force: bool, k: Key) {
    exists path :: StoredPath(ctx, root, force, path) && path[|path| - 1] == k
  }

  /** A processed scope the walk can get to has the given dependency. */
  ghost predicate ReachedEdge(ctx: Context, root: Key, force: bool, k: Key, c: Key) {
    Enters(ctx, root, force, k) && Works(ctx, root, force, k) && Child(ctx, k, c)
  }

  ghost predicate EdgesEntered(ctx: Context, k: Key) {
    forall c {:trigger Child(ctx, k, c)} :: Child(ctx, k, c) ==> c.scope.turn in ctx.turns && Usable(ctx, c.analyticId)
  }

  /** The walk is complete: dependencies first, the root last, nothing that leads back to the
      path it came from, and no edge left unwalked. */
  ghost predicate Complete(ctx: Context, root: Key, force: bool, visiting: set<Key>, pending: seq<Key>) {
    if !Works(ctx, root, force, root) then pending == []
    else
      && pending != [] && pending[|pending| - 1] == root
      && Collected(ctx, root, visiting + {root}, pending[..|pending| - 1])
      && (forall c {:trigger Child(ctx, root, c)} :: Child(ctx, root, c) ==>
            c !in visiting + {root} && (NeedsWork(ctx, c) ==> c in pending[..|pending| - 1]))
      && (forall k {:trigger EdgesEntered(ctx, k)} :: k in pending ==> EdgesEntered(ctx, k))
      && (forall k {:trigger Enters(ctx, root, force, k)} :: k in pending ==> Enters(ctx, root, force, k))
  }

  ghost predicate Meaning(ctx: Context, root: Key, force: bool, visiting: set<Key>, out: Outcome) {
    match out
    case CycleDetected(at) => CycleFound(ctx, root, force, visiting, at)
    case TurnNotStored(turn) => exists k, c ::
        ReachedEdge(ctx, root, force, k, c) && c.scope.turn == turn && turn !in ctx.turns
    case BadTarget(a) => exists k, c :: ReachedEdge(ctx, root, force, k, c) && c.analyticId == a && !Usable(ctx, a)
    case Walked(missing, pending) =>
      root !in visiting && missing == StepsOf(pending) && Complete(ctx, root, force, visiting, pending)
  }

  // --- composing paths ----------------------------------------------------------------------

  lemma SingletonPath(ctx: Context, root: Key, force: bool)
    ensures WorkPath(ctx, root, force, [root]) && Reaches(ctx, root, force, root) && Enters(ctx, root, force, root)
  {
    assert StoredPath(ctx, root, force, [root]);
  }

  lemma PathPrepend(ctx: Context, root: Key, force: bool, c: Key, path: seq<Key>)
    requires Works(ctx, root, force, root) && Child(ctx, root, c) && WorkPath(ctx, c, false, path)
    ensures WorkPath(ctx, root, force, [root] + path)
  {
    var longer := [root] + path;
    forall i: nat | 0 < i < |longer| ensures Hop(ctx, root, force, longer, i) {
      if i > 1 { assert Hop(ctx, c, false, path, i - 1); }
    }
  }

  lemma EnteredIsReached(ctx: Context, root: Key, force: bool, k: Key)
    requires Enters(ctx, root, force, k)
    ensures Reaches(ctx, root, force, k)
  {
    var path :| StoredPath(ctx, root, force, path) && path[|path| - 1] == k;
    assert WorkPath(ctx, root, force, path);
  }

  lemma EnterPrepend(ctx: Context, root: Key, force: bool, c: Key, k: Key)
    requires Works(ctx, root, force, root) && Child(ctx, root, c) && c.scope.turn in ctx.turns
             && Enters(ctx, c, false, k)
    ensures Enters(ctx, root, force, k)
  {
    var path :| StoredPath(ctx, c, false, path) && path[|path| - 1] == k;
    PathPrepend(ctx, root, force, c, path);
    var longer := [root] + path;
    assert StoredPath(ctx, root, force, longer) && longer[|longer| - 1] == k;
  }

  /** A failure found below a dependency is a failure found from the scope itself. */
  lemma NestedFailure(ctx: Context, root: Key, force: bool, visiting: set<Key>, c: Key, out: Outcome)
    requires Works(ctx, root, force, root) && Child(ctx, root, c) && c.scope.turn in ctx.turns && !out.Walked?
    requires Meaning(ctx, c, false, visiting + {root}, out)
    ensures Meaning(ctx, root, force, visiting, out)
  {
    match out {
      case CycleDetected(at) =>
        var path :| WorkPath(ctx, c, false, path) && ClosesCycle(visiting + {root}, path) && path[|path| - 1] == at;
        PathPrepend(ctx, root, force, c, path);
        NestedCycle(visiting, root, path);
        var longer := [root] + path;
        assert longer[|longer| - 1] == at;
      case TurnNotStored(turn) =>
        var k, l :| ReachedEdge(ctx, c, false, k, l) && l.scope.turn == turn && turn !in ctx.turns;
        EnterPrepend(ctx, root, force, c, k);
        assert ReachedEdge(ctx, root, force, k, l);
      case BadTarget(a) =>
        var k, l :| ReachedEdge(ctx, c, false, k, l) && l.analyticId == a && !Usable(ctx, a);
        EnterPrepend(ctx, root, force, c, k);
        assert ReachedEdge(ctx, root, force, k, l);
    }
  }

  lemma NestedCycle(visiting: set<Key>, root: Key, path: seq<Key>)
    requires ClosesCycle(visiting + {root}, path)
    ensures ClosesCycle(visiting, [root] + path)
  {
    var longer := [root] + path;
    var last := path[|path| - 1];
    assert longer[|longer| - 1] == last;
    if last !in visiting {
      if last == root {
        assert longer[0] == last;
      } else {
        var i: nat :| i < |path| - 1 && path[i] == last;
        assert longer[i + 1] == last;
      }
    }
  }

  // --- composing results --------------------------------------------------------------------

  /** The result of a dependency's walk, ready to be merged into its dependent's. */
  lemma NestedCollected(ctx: Context, root: Key, visiting: set<Key>, c: Key, pending: seq<Key>)
    requires Child(ctx, root, c) && c !in visiting && Complete(ctx, c, false, visiting, pending)
    ensures Collected(ctx, root, visiting, pending)
    ensures NeedsWork(ctx, c) ==> c in pending
  {
    ChildSameGame(ctx, root, c);
    if pending != [] {
      var inner := pending[..|pending| - 1];
      assert pending == inner + [c];
      AppendMembers(inner, c);
      OrderedAppend(ctx, inner, c);
    }
  }

  /** The first `j` edges of the scope have been walked: none leads back to the path it came
      from, and what they need is pending. */
  ghost predicate EdgesWalked(ctx: Context, root: Key, visiting: set<Key>, edges: seq<Key>, j: nat, pending: seq<Key>) {
    forall i :: 0 <= i < j <= |edges| && TurnFloor(ctx, root.scope) <= edges[i].scope.turn ==>
      && edges[i] !in visiting + {root} && (NeedsWork(ctx, edges[i]) ==> edges[i] in pending)
      && edges[i].scope.turn in ctx.turns && Usable(ctx, edges[i].analyticId)
  }

  /** The walk got to every pending scope, and could enter all its edges. */
  ghost predicate Processed(ctx: Context, root: Key, force: bool, pending: seq<Key>) {
    && (forall k {:trigger EdgesEntered(ctx, k)} :: k in pending ==> EdgesEntered(ctx, k))
    && (forall k {:trigger Enters(ctx, root, force, k)} :: k in pending ==> Enters(ctx, root, force, k))
  }

  /** The state of the edge loop. */
  ghost predicate Progress(ctx: Context, root: Key, force: bool, visiting: set<Key>, edges: seq<Key>, j: nat,
          pending: seq<Key>)
  {
    && j <= |edges|
    && Collected(ctx, root, visiting + {root}, pending)
    && EdgesWalked(ctx, root, visiting, edges, j, pending)
    && Processed(ctx, root, force, pending)
  }

  lemma ProgressMerges(ctx: Context, root: Key, force: bool, visiting: set<Key>, edges: seq<Key>, j: nat,
          pending: seq<Key>, nested: seq<Key>)
    requires edges == Edges(ctx, root) && Works(ctx, root, force, root)
    requires Progress(ctx, root, force, visiting, edges, j, pending) && j < |edges|
    requires TurnFloor(ctx, root.scope) <= edges[j].scope.turn && edges[j].scope.turn in ctx.turns
             && Usable(ctx, edges[j].analyticId)
    requires edges[j] !in visiting + {root} && Complete(ctx, edges[j], false, visiting + {root}, nested)
    ensures Progress(ctx, root, force, visiting, edges, j + 1, Merge(pending, nested))
    ensures StepsOf(Merge(pending, nested)) == Merge(StepsOf(pending), StepsOf(nested))
  {
    var c := edges[j];
    assert Child(ctx, root, c);
    hide Collected, Complete, Child, Works, Edges, NeedsWork, Usable, Merge, StepsOf, EdgesWalked, Processed, TurnFloor;
    NestedCollected(ctx, root, visiting + {root}, c, nested);
    MergeCollected(ctx, root, visiting + {root}, pending, nested);
    MergedSteps(ctx, root, visiting + {root}, pending, nested);
    MergedEdges(ctx, root, visiting, edges, j, pending, nested);
    MergedProcessed(ctx, root, force, visiting, c, pending, nested);
  }

  /** Missing steps are merged as their scopes are. */
  lemma MergedSteps(ctx: Context, root: Key, visiting: set<Key>, pending: seq<Key>, nested: seq<Key>)
    requires Collected(ctx, root, visiting, pending) && Collected(ctx, root, visiting, nested)
    ensures StepsOf(Merge(pending, nested)) == Merge(StepsOf(pending), StepsOf(nested))
  {
    assert forall k :: k in pending || k in nested ==> SameGame(k, root);
    hide Collected, SameGame, Merge, StepsOf;
    MergeSteps(pending, nested, root);
  }

  /** One more edge has been walked. */
  lemma MergedEdges(ctx: Context, root: Key, visiting: set<Key>, edges: seq<Key>, j: nat, pending: seq<Key>,
          nested: seq<Key>)
    requires EdgesWalked(ctx, root, visiting, edges, j, pending) && j < |edges| && edges[j] !in visiting + {root}
    requires edges[j].scope.turn in ctx.turns && Usable(ctx, edges[j].analyticId)
             && (NeedsWork(ctx, edges[j]) ==> edges[j] in nested)
    ensures EdgesWalked(ctx, root, visiting, edges, j + 1, Merge(pending, nested))
  {
    MergeMembers(pending, nested);
    hide Merge, NeedsWork, Usable, TurnFloor;
  }

  /** What a dependency's walk reached is reached through the edge to it. */
  lemma MergedProcessed(ctx: Context, root: Key, force: bool, visiting: set<Key>, c: Key, pending: seq<Key>,
          nested: seq<Key>)
    requires Works(ctx, root, force, root) && Child(ctx, root, c) && c.scope.turn in ctx.turns
    requires Complete(ctx, c, false, visiting + {root}, nested)
    requires Processed(ctx, root, force, pending)
    ensures Processed(ctx, root, force, Merge(pending, nested))
  {
    var merged := Merge(pending, nested);
    MergeMembers(pending, nested);
    forall k | k in merged ensures Enters(ctx, root, force, k) {
      if k !in pending {
        assert Enters(ctx, c, false, k);
        EnterPrepend(ctx, root, force, c, k);
      }
    }
    forall k | k in merged ensures EdgesEntered(ctx, k) {
      assert k in pending ==> EdgesEntered(ctx, k);
      assert k in nested ==> EdgesEntered(ctx, k);
    }
  }

  lemma ProgressCompletes(ctx: Context, root: Key, force: bool, visiting: set<Key>, pending: seq<Key>)
    requires Works(ctx, root, force, root)
    requires Progress(ctx, root, force, visiting, Edges(ctx, root), |Edges(ctx, root)|, pending)
    ensures Complete(ctx, root, force, visiting, pending + [root])
    ensures StepsOf(pending + [root]) == StepsOf(pending) + [StepOf(root)]
  {
    var all := pending + [root];
    var edges := Edges(ctx, root);
    assert all[..|all| - 1] == pending;
    SingletonPath(ctx, root, force);
    forall c | Child(ctx, root, c)
      ensures c !in visiting + {root} && (NeedsWork(ctx, c) ==> c in pending) && c.scope.turn in ctx.turns
              && Usable(ctx, c.analyticId)
    {
      var i :| 0 <= i < |edges| && edges[i] == c;
    }
    assert EdgesEntered(ctx, root);
  }

  // --- the walk -----------------------------------------------------------------------------

  /** Walk the ensure edges of `key`.  The visiting set is restored on every way out. */
  method Walk(ctx: Context, key: Key, visiting: Visiting, force: bool, ghost universe: set<Key>) returns (out: Outcome)
    requires Closed(ctx, universe) && key in universe
    modifies visiting
    ensures visiting.keys == old(visiting.keys)
    ensures Meaning(ctx, key, force, old(visiting.keys), out)
    decreases universe - visiting.keys, 1
  {
    if key in visiting.keys {
      SingletonPath(ctx, key, force);
      assert ClosesCycle(visiting.keys, [key]);
      return CycleDetected(key);
    }
    visiting.keys := visiting.keys + {key};
    if !Usable(ctx, key.analyticId) || (!force && ctx.satisfied(key)) {
      visiting.keys := visiting.keys - {key};
      return Walked([], []);
    }
    out := WalkEdges(ctx, key, visiting, force, universe, old(visiting.keys));
    visiting.keys := visiting.keys - {key};
  }

  method WalkEdges(ctx: Context, key: Key, visiting: Visiting, force: bool, ghost universe: set<Key>,
          ghost before: set<Key>) returns (out: Outcome)
    requires Closed(ctx, universe) && key in universe && Works(ctx, key, force, key)
    requires key !in before && visiting.keys == before + {key}
    modifies visiting
    ensures visiting.keys == old(visiting.keys)
    ensures Meaning(ctx, key, force, before, out)
    decreases universe - visiting.keys, 2
  {
    SingletonPath(ctx, key, force);
    var missing: seq<MissingStep>, pending: seq<Key> := [], [];
    var seenMissing: set<MissingStep>, seenPending: set<Key> := {}, {};
    var edges := Edges(ctx, key);
    var floor := TurnFloor(ctx, key.scope);
    var j := 0;
    while j < |edges|
      invariant 0 <= j <= |edges| && visiting.keys == before + {key}
      invariant Progress(ctx, key, force, before, edges, j, pending) && missing == StepsOf(pending)
      invariant (forall x :: x in seenPending <==> x in pending) && (forall x :: x in seenMissing <==> x in missing)
    {
      var c := edges[j];
      if floor <= c.scope.turn {
        assert Child(ctx, key, c);
        if c.scope.turn !in ctx.turns {
          assert ReachedEdge(ctx, key, force, key, c);
          return TurnNotStored(c.scope.turn);
        }
        if !Usable(ctx, c.analyticId) {
          assert ReachedEdge(ctx, key, force, key, c);
          return BadTarget(c.analyticId);
        }
        var nested := Walk(ctx, c, visiting, false, universe);
        if !nested.Walked? {
          NestedFailure(ctx, key, force, before, c, nested);
          return nested;
        }
        ProgressMerges(ctx, key, force, before, edges, j, pending, nested.pending);
        missing, seenMissing := ExtendUnique(missing, nested.missing, seenMissing);
        pending, seenPending := ExtendUnique(pending, nested.pending, seenPending);
      }
      j := j + 1;
    }
    ProgressCompletes(ctx, key, force, before, pending);
    return Walked(missing + [StepOf(key)], pending + [key]);
  }

  // --- what a whole walk means --------------------------------------------------------------

  /** Dependencies come first, wherever they are. */
  lemma OrderedAt(ctx: Context, root: Key, force: bool, pending: seq<Key>, i: nat, c: Key)
    requires Works(ctx, root, force, root) && Complete(ctx, root, force, {}, pending) && i < |pending|
    requires Child(ctx, pending[i], c) && Works(ctx, root, force, c)
    ensures c in pending[..i]
  {
    var inner := pending[..|pending| - 1];
    if i < |inner| {
      assert pending[i] == inner[i] && pending[i] in inner;
      assert Child(ctx, inner[i], c);
      assert c != root;
      assert pending[..i] == inner[..i];
    } else {
      assert pending[i] == root;
      assert c != root;
      assert pending[..i] == inner;
    }
  }

  lemma PendingIsNoDup(ctx: Context, root: Key, force: bool, pending: seq<Key>)
    requires Complete(ctx, root, force, {}, pending)
    ensures NoDup(pending)
  {
    if pending != [] {
      assert pending == pending[..|pending| - 1] + [root];
      AppendMembers(pending[..|pending| - 1], root);
    }
  }

  ghost function Position(s: seq<Key>, k: Key): (i: nat)
    requires k in s
    ensures i < |s| && s[i] == k
  {
    var i :| 0 <= i < |s| && s[i] == k;
    i
  }

  lemma Distinct(s: seq<Key>, i: nat, j: nat)
    requires NoDup(s) && i < j < |s|
    ensures s[i] != s[j]
  {
    assert Differ(s, i, j);
  }

  lemma PositionBelow(s: seq<Key>, k: Key, i: nat)
    requires NoDup(s) && i < |s| && k in s[..i]
    ensures k in s && Position(s, k) < i
  {
    var j :| 0 <= j < i && s[..i][j] == k;
    assert s[j] == k;
    var n := Position(s, k);
    if j < n { Distinct(s, j, n); }
  }

  /** Every processed scope on a path is in the plan, and the position falls at every step. */
  lemma {:induction false} PathDescends(ctx: Context, root: Key, force: bool, pending: seq<Key>, path: seq<Key>, n: nat)
    requires Works(ctx, root, force, root) && Complete(ctx, root, force, {}, pending)
    requires WorkPath(ctx, root, force, path) && n < |path| && Works(ctx, root, force, path[n])
    ensures path[n] in pending
    ensures n > 0 ==> path[n - 1] in pending && Position(pending, path[n]) < Position(pending, path[n - 1])
  {
    if n == 0 {
      assert pending[|pending| - 1] == root;
    } else {
      assert Hop(ctx, root, force, path, n);
      PathDescends(ctx, root, force, pending, path, n - 1);
      var at := Position(pending, path[n - 1]);
      OrderedAt(ctx, root, force, pending, at, path[n]);
      PendingIsNoDup(ctx, root, force, pending);
      PositionBelow(pending, path[n], at);
    }
  }

  lemma {:induction false} PathFalls(ctx: Context, root: Key, force: bool, pending: seq<Key>, path: seq<Key>, i: nat,
          n: nat)
    requires Works(ctx, root, force, root) && Complete(ctx, root, force, {}, pending)
    requires WorkPath(ctx, root, force, path) && i < n < |path| && Works(ctx, root, force, path[n])
    ensures path[i] in pending && path[n] in pending && Position(pending, path[n]) < Position(pending, path[i])
    decreases n
  {
    PathDescends(ctx, root, force, pending, path, n);
    if i < n - 1 {
      assert Hop(ctx, root, force, path, n);
      PathFalls(ctx, root, force, pending, path, i, n - 1);
    }
  }

  /** A completed walk lists exactly the processed scopes that are reachable. */
  lemma WalkIsExact(ctx: Context, root: Key, force: bool, pending: seq<Key>, k: Key)
    requires Complete(ctx, root, force, {}, pending)
    ensures k in pending <==>
            Reaches(ctx, root, force, k) && Works(ctx, root, force, k) && Works(ctx, root, force, root)
  {
    if k in pending {
      assert Enters(ctx, root, force, k);
      EnteredIsReached(ctx, root, force, k);
      if k != root {
        var i := Position(pending, k);
        assert pending[..|pending| - 1][i] == k;
        assert k in pending[..|pending| - 1];
      }
    }
    if Reaches(ctx, root, force, k) && Works(ctx, root, force, k) && Works(ctx, root, force, root) {
      var path :| WorkPath(ctx, root, force, path) && path[|path| - 1] == k;
      PathDescends(ctx, root, force, pending, path, |path| - 1);
    }
  }

  /** A walk that completes proves there is no cycle of processed scopes to find. */
  lemma CompleteMeansAcyclic(ctx: Context, root: Key, force: bool, pending: seq<Key>)
    requires Complete(ctx, root, force, {}, pending)
    ensures !HasWorkCycle(ctx, root, force)
  {
    if HasWorkCycle(ctx, root, force) {
      var path, i: nat :| IsWorkCycle(ctx, root, force, path, i);
      NoSuchCycle(ctx, root, force, pending, path, i);
    }
  }

  lemma NoSuchCycle(ctx: Context, root: Key, force: bool, pending: seq<Key>, path: seq<Key>, i: nat)
    requires Complete(ctx, root, force, {}, pending)
    ensures !IsWorkCycle(ctx, root, force, path, i)
  {
    if IsWorkCycle(ctx, root, force, path, i) {
      InnerWorks(ctx, root, force, path, 0);
      InnerWorks(ctx, root, force, path, i);
      hide Complete, WorkPath, Works;
      PathFalls(ctx, root, force, pending, path, i, |path| - 1);
    }
  }

  lemma InnerWorks(ctx: Context, root: Key, force: bool, path: seq<Key>, i: nat)
    requires WorkPath(ctx, root, force, path) && i < |path| - 1
    ensures Works(ctx, root, force, path[i]) && path[0] == root
  {
    assert Hop(ctx, root, force, path, i + 1);
  }

  lemma FoundCycleIsCycle(ctx: Context, root: Key, force: bool, at: Key)
    requires CycleFound(ctx, root, force, {}, at)
    ensures HasWorkCycle(ctx, root, force)
  {
    var path :| WorkPath(ctx, root, force, path) && ClosesCycle({}, path) && path[|path| - 1] == at;
    var i: nat :| i < |path| - 1 && path[i] == path[|path| - 1];
    assert IsWorkCycle(ctx, root, force, path, i);
  }

  /** Every turn a walk could touch is stored, and every edge names a usable analytic. */
  ghost predicate WellStocked(ctx: Context, root: Key, force: bool) {
    forall k, c {:trigger ReachedEdge(ctx, root, force, k, c)} :: ReachedEdge(ctx, root, force, k, c) ==>
        c.scope.turn in ctx.turns && Usable(ctx, c.analyticId)
  }

  // --- where the walk starts ----------------------------------------------------------------

  /** Settings are the same on every stored turn, and ensure edges never look ahead. */
  ghost predicate Regular(ctx: Context, acceleratedTurns: int) {
    && (forall t :: t in ctx.turns ==> ctx.turns[t].acceleratedTurns == acceleratedTurns)
    && (forall a, scope, dep {:trigger dep in ctx.registry[a].dependenciesFor(scope)} ::
          a in ctx.registry && dep in ctx.registry[a].dependenciesFor(scope) ==> dep.turnDelta <= 0)
  }

  lemma ChildTurn(ctx: Context, acceleratedTurns: int, k: Key, c: Key)
    requires Regular(ctx, acceleratedTurns) && Child(ctx, k, c)
    ensures TurnFloor(ctx, k.scope) <= c.scope.turn <= k.scope.turn
  {
    var deps := ctx.registry[k.analyticId].dependenciesFor(k.scope);
    EdgesSameGame(ctx, k.scope, deps, c);
    var dep :| dep in deps && c.analyticId == dep.analyticId && c.scope in DependencyScopes(ctx, k.scope, dep);
    assert dep in ctx.registry[k.analyticId].dependenciesFor(k.scope);
  }

  /** The walk leaves out exactly the edges to turns below `start`: nothing below it is demanded,
      and every declared edge to a turn from it on is walked. */
  ghost predicate WalkedFrom(ctx: Context, root: Key, start: int, out: Outcome) {
    match out
    case Walked(missing, pending) =>
      && (forall k :: k in pending ==> k == root || start <= k.scope.turn)
      && (forall step :: step in missing ==> step.turn == root.scope.turn || start <= step.turn)
      && (forall k, c {:trigger c in Edges(ctx, k)} :: k in pending && c in Edges(ctx, k) && start <= c.scope.turn ==>
            && c.scope.turn in ctx.turns && c.analyticId in ctx.registry && !ctx.registry[c.analyticId].isEmpty
            && (!ctx.satisfied(c) ==> c in pending))
    case TurnNotStored(turn) => start <= turn
    case _ => true
  }

  /** Along scopes at stored turns of a regular game the floor is that of the root. */
  lemma {:induction false} FloorStays(ctx: Context, root: Key, force: bool, n: int, path: seq<Key>, i: nat)
    requires Regular(ctx, n) && root.scope.turn in ctx.turns && StoredPath(ctx, root, force, path) && i < |path|
    ensures path[i].scope.turn <= root.scope.turn
    ensures TurnFloor(ctx, path[i].scope) == if 0 < n <= root.scope.turn then n else 1
    ensures i > 0 ==> TurnFloor(ctx, path[i].scope) <= path[i].scope.turn
  {
    if i > 0 {
      FloorStays(ctx, root, force, n, path, i - 1);
      assert Hop(ctx, root, force, path, i);
      ChildTurn(ctx, n, path[i - 1], path[i]);
      assert path[i].scope.turn in ctx.turns;
    }
  }

  lemma EnteredFloor(ctx: Context, root: Key, force: bool, n: int, k: Key)
    requires Regular(ctx, n) && root.scope.turn in ctx.turns && Enters(ctx, root, force, k)
    ensures TurnFloor(ctx, k.scope) == if 0 < n <= root.scope.turn then n else 1
    ensures k == root || TurnFloor(ctx, k.scope) <= k.scope.turn
  {
    var path :| StoredPath(ctx, root, force, path) && path[|path| - 1] == k;
    FloorStays(ctx, root, force, n, path, |path| - 1);
  }

  /** The accelerated start: in a regular game whose root is at or above turn N nothing below N
      is demanded; in any other every declared edge from turn 1 on is walked. */
  lemma WalkStartsAt(ctx: Context, root: Key, force: bool, n: int, out: Outcome)
    requires Regular(ctx, n) && root.scope.turn in ctx.turns && Meaning(ctx, root, force, {}, out)
    ensures 0 < n <= root.scope.turn ==> WalkedFrom(ctx, root, n, out)
    ensures n <= 0 || root.scope.turn < n ==> WalkedFrom(ctx, root, 1, out)
  {
    hide Regular, TurnFloor, Enters, Works, Edges, NeedsWork, Usable;
    var start := if 0 < n <= root.scope.turn then n else 1;
    match out {
      case TurnNotStored(turn) =>
        var k, c :| ReachedEdge(ctx, root, force, k, c) && c.scope.turn == turn && turn !in ctx.turns;
        EnteredFloor(ctx, root, force, n, k);
      case Walked(missing, pending) =>
        forall k | k in pending ensures TurnFloor(ctx, k.scope) == start && (k == root || start <= k.scope.turn) {
          assert Enters(ctx, root, force, k);
          EnteredFloor(ctx, root, force, n, k);
        }
        forall step | step in missing ensures step.turn == root.scope.turn || start <= step.turn {
          var i :| 0 <= i < |missing| && missing[i] == step;
          assert pending[i] in pending;
        }
        forall k, c | k in pending && c in Edges(ctx, k) && start <= c.scope.turn
          ensures c.scope.turn in ctx.turns && c.analyticId in ctx.registry && !ctx.registry[c.analyticId].isEmpty
                  && (!ctx.satisfied(c) ==> c in pending)
        {
          assert EdgesEntered(ctx, k) && Child(ctx, k, c);
          UsableMeans(ctx, c);
          if NeedsWork(ctx, c) { PendingHasChildren(ctx, root, force, pending, k, c); }
        }
      case _ =>
    }
  }

  lemma UsableMeans(ctx: Context, k: Key)
    ensures Usable(ctx, k.analyticId) <==> k.analyticId in ctx.registry && !ctx.registry[k.analyticId].isEmpty
    ensures NeedsWork(ctx, k) <==> Usable(ctx, k.analyticId) && !ctx.satisfied(k)
  {}

  /** Satisfied scopes are elided, but for a forced root. */
  ghost predicate Elides(ctx: Context, root: Key, force: bool, pending: seq<Key>) {
    && (forall k :: k in pending ==>
          k.analyticId in ctx.registry && !ctx.registry[k.analyticId].isEmpty
              && (ctx.satisfied(k) ==> force && k == root))
    && (root in pending <==>
          root.analyticId in ctx.registry && !ctx.registry[root.analyticId].isEmpty && (ctx.satisfied(root) ==> force))
  }

  lemma WalkElides(ctx: Context, root: Key, force: bool, pending: seq<Key>)
    requires Complete(ctx, root, force, {}, pending)
    ensures Elides(ctx, root, force, pending)
  {
    forall k | k in pending ensures Works(ctx, root, force, k) { WalkIsExact(ctx, root, force, pending, k); }
    assert Works(ctx, root, force, root) <==> root in pending;
    hide Complete;
  }

  lemma PendingHasChildren(ctx: Context, root: Key, force: bool, pending: seq<Key>, k: Key, c: Key)
    requires Complete(ctx, root, force, {}, pending) && k in pending && Child(ctx, k, c) && NeedsWork(ctx, c)
    ensures c in pending
  {
    var i :| 0 <= i < |pending| && pending[i] == k;
    OrderedAt(ctx, root, force, pending, i, c);
  }

  /** The public entry: a walk from one scope with an empty visiting set.  It ends in one of
      four ways, each exactly characterised; with everything stored and every target usable it
      raises a cycle if and only if there is one; and in a regular game it starts at turn N where
      the accelerated start applies, and at turn 1 elsewhere. */
  method WalkDependencyTree(ctx: Context, key: Key, force: bool) returns (out: Outcome)
    ensures Meaning(ctx, key, force, {}, out)
    ensures out.CycleDetected? ==> HasWorkCycle(ctx, key, force)
    ensures out.Walked? ==> !HasWorkCycle(ctx, key, force)
    ensures out.Walked? ==> |out.missing| == |out.pending| && forall i :: 0 <= i < |out.pending| ==>
              && out.missing[i].analyticId == out.pending[i].analyticId
              && out.missing[i].turn == out.pending[i].scope.turn
              && out.missing[i].playerId == out.pending[i].scope.playerId
    ensures out.Walked? ==> Elides(ctx, key, force, out.pending)
    ensures WellStocked(ctx, key, force) ==>
            (out.CycleDetected? <==> HasWorkCycle(ctx, key, force)) && (out.CycleDetected? || out.Walked?)
    ensures key.scope.turn in ctx.turns && Regular(ctx, ctx.turns[key.scope.turn].acceleratedTurns) ==>
            var n := ctx.turns[key.scope.turn].acceleratedTurns;
            && (0 < n <= key.scope.turn ==> WalkedFrom(ctx, key, n, out))
            && (n <= 0 || key.scope.turn < n ==> WalkedFrom(ctx, key, 1, out))
  {
    var visiting := new Visiting();
    UniverseIsClosed(ctx, key);
    out := Walk(ctx, key, visiting, force, Universe(ctx, key));
    if out.CycleDetected? {
      FoundCycleIsCycle(ctx, key, force, out.at);
    }
    if key.scope.turn in ctx.turns && Regular(ctx, ctx.turns[key.scope.turn].acceleratedTurns) {
      WalkStartsAt(ctx, key, force, ctx.turns[key.scope.turn].acceleratedTurns, out);
    }
    match out {
      case Walked(missing, pending) =>
        CompleteMeansAcyclic(ctx, key, force, pending);
        WalkElides(ctx, key, force, pending);
      case _ =>
    }
  }
}
