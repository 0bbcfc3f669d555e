/**
The dependency walk behind every plan: a depth-first walk over ensure edges that elides
satisfied scopes, skips turns below the game's ensure floor, detects cycles and lists the
scopes that still need work, dependencies first.
*/
module DependencyWalk {
  import opened Prelude

  // --- data ---------------------------------------------------------------------------------

  datatype ExportScope = ExportScope(gameId: int, perspective: int, turn: int, playerId: Option<int>)

  /** One vertex of the walk: an analytic at a scope. */
  datatype Key = Key(analyticId: string, scope: ExportScope)

  datatype PlayerSelector = SamePlayer | NoPlayer | AllPlayers

  datatype EnsureDependency = EnsureDependency(analyticId: string, turnDelta: int, player: PlayerSelector)

  /** `dependenciesFor` answers which ensure edges apply at a scope. */
  datatype Catalog = Catalog(isEmpty: bool, dependenciesFor: ExportScope -> seq<EnsureDependency>)

  /** The parts of a stored turn the walk reads. */
  datatype TurnInfo = TurnInfo(acceleratedTurns: int, roster: seq<int>)

  datatype Context = Context(
    turns: map<int, TurnInfo>, ambientTurn: int, registry: map<string, Catalog>, satisfied: Key -> bool)

  datatype MissingStep = MissingStep(analyticId: string, turn: int, playerId: Option<int>)

  datatype Outcome =
    | Walked(missing: seq<MissingStep>, pending: seq<Key>)
    | CycleDetected(at: Key)
    | TurnNotStored(turn: int)
    | BadTarget(analyticId: string)

  // --- the ensure relation ------------------------------------------------------------------

  /** Lowest turn that may be required when targeting `scopeTurn`. */
  function AcceleratedEnsureFloor(acceleratedTurns: int, scopeTurn: int): int {
    if acceleratedTurns > 0 && scopeTurn >= acceleratedTurns then acceleratedTurns else 1
  }

  function TurnFloor(ctx: Context, scope: ExportScope): int {
    if scope.turn in ctx.turns then AcceleratedEnsureFloor(ctx.turns[scope.turn].acceleratedTurns, scope.turn)
    else if ctx.ambientTurn in ctx.turns
        then AcceleratedEnsureFloor(ctx.turns[ctx.ambientTurn].acceleratedTurns, scope.turn)
    else 1
  }

  /** One edge may name one scope, or every player on the target turn's roster. */
  function DependencyScopes(ctx: Context, scope: ExportScope, dep: EnsureDependency): seq<ExportScope> {
    var turn := scope.turn + dep.turnDelta;
    match dep.player
    case SamePlayer => [scope.(turn := turn)]
    case NoPlayer => [scope.(turn := turn, playerId := None)]
    case AllPlayers =>
      if turn !in ctx.turns then [scope.(turn := turn, playerId := None)]
      else
        var roster := ctx.turns[turn].roster;
        seq(|roster|, i requires 0 <= i < |roster| => scope.(turn := turn, playerId := Some(roster[i])))
  }

  function KeysAt(analyticId: string, scopes: seq<ExportScope>): seq<Key> {
    seq(|scopes|, i requires 0 <= i < |scopes| => Key(analyticId, scopes[i]))
  }

  function EdgesOf(ctx: Context, scope: ExportScope, deps: seq<EnsureDependency>): seq<Key> {
    if deps == [] then []
    else KeysAt(deps[0].analyticId, DependencyScopes(ctx, scope, deps[0])) + EdgesOf(ctx, scope, deps[1..])
  }

  predicate Usable(ctx: Context, analyticId: string) {
    analyticId in ctx.registry && !ctx.registry[analyticId].isEmpty
  }

  /** All declared edges of a key, in declaration order. */
  function Edges(ctx: Context, k: Key): seq<Key> {
    if Usable(ctx, k.analyticId) then EdgesOf(ctx, k.scope, ctx.registry[k.analyticId].dependenciesFor(k.scope)) else []
  }

  /** `c` is a dependency of `k` that is not below the floor of `k`. */
  predicate Child(ctx: Context, k: Key, c: Key) {
    c in Edges(ctx, k) && TurnFloor(ctx, k.scope) <= c.scope.turn
  }

  predicate NeedsWork(ctx: Context, k: Key) { Usable(ctx, k.analyticId) && !ctx.satisfied(k) }

  /** The scopes a walk from `root` processes: those needing work, and a forced root. */
  predicate Works(ctx: Context, root: Key, force: bool, k: Key) {
    NeedsWork(ctx, k) || (force && k == root && Usable(ctx, k.analyticId))
  }

  /** A path along ensure edges whose inner scopes are all processed. */
  ghost predicate WorkPath(ctx: Context, root: Key, force: bool, path: seq<Key>) {
    && path != [] && path[0] == root
    && (forall i: nat {:trigger Hop(ctx, root, force, path, i)} :: 0 < i < |path| ==> Hop(ctx, root, force, path, i))
  }

  /** Position `i` of the path is a dependency of the processed scope before it. */
  ghost predicate Hop(ctx: Context, root: Key, force: bool, path: seq<Key>, i: nat)
    requires 0 < i < |path|
  {
    Works(ctx, root, force, path[i - 1]) && Child(ctx, path[i - 1], path[i])
  }

  ghost predicate Reaches(ctx: Context, root: Key, force: bool, k: Key) {
    exists path :: WorkPath(ctx, root, force, path) && path[|path| - 1] == k
  }

  /** Some walk from the root along processed scopes comes back to a scope it has passed. */
  ghost predicate HasWorkCycle(ctx: Context, root: Key, force: bool) {
    exists path, i: nat :: IsWorkCycle(ctx, root, force, path, i)
  }

  ghost predicate IsWorkCycle(ctx: Context, root: Key, force: bool, path: seq<Key>, i: nat) {
    WorkPath(ctx, root, force, path) && i < |path| - 1 && path[i] == path[|path| - 1]
  }

  function StepOf(k: Key): MissingStep { MissingStep(k.analyticId, k.scope.turn, k.scope.playerId) }

  function StepsOf(ks: seq<Key>): seq<MissingStep> {
    seq(|ks|, i requires 0 <= i < |ks| => StepOf(ks[i]))
  }

  // --- what a plan order means --------------------------------------------------------------

  /** Every dependency needing work stands before its dependent. */
  ghost predicate Ordered(ctx: Context, pending: seq<Key>) {
    forall i: nat, c {:trigger Child(ctx, pending[i], c)} ::
        i < |pending| && Child(ctx, pending[i], c) && NeedsWork(ctx, c) ==> c in pending[..i]
  }

  ghost predicate SameGame(k: Key, l: Key) {
    k.scope.gameId == l.scope.gameId && k.scope.perspective == l.scope.perspective
  }

  /** The accumulated result of the edges walked so far. */
  ghost predicate Collected(ctx: Context, root: Key, visiting: set<Key>, pending: seq<Key>) {
    && NoDup(pending) && Ordered(ctx, pending)
    && (forall k :: k in pending ==> NeedsWork(ctx, k) && k !in visiting && SameGame(k, root))
    && (forall k, c {:trigger Child(ctx, k, c)} :: k in pending && Child(ctx, k, c) ==> c !in visiting)
  }

  // --- merging results ----------------------------------------------------------------------

  /** Append the items not yet present, in order. */
  function Merge<T(==)>(target: seq<T>, source: seq<T>): (r: seq<T>)
    ensures target <= r
    decreases |source|
  {
    if source == [] then target
    else Merge(if source[0] in target then target else target + [source[0]], source[1..])
  }

  lemma {:induction false} MergeMembers<T>(target: seq<T>, source: seq<T>)
    ensures forall x :: x in Merge(target, source) <==> x in target || x in source
    ensures NoDup(target) ==> NoDup(Merge(target, source))
    decreases |source|
  {
    if source != [] {
      var next := if source[0] in target then target else target + [source[0]];
      if NoDup(target) && source[0] !in target { AppendMembers(target, source[0]); }
      MergeMembers(next, source[1..]);
      forall x ensures x in Merge(target, source) <==> x in target || x in source {
        assert source == [source[0]] + source[1..];
      }
    }
  }

  method ExtendUnique<T(==)>(target: seq<T>, source: seq<T>, seen: set<T>) returns (extended: seq<T>, seen': set<T>)
    requires forall x :: x in seen <==> x in target
    ensures extended == Merge(target, source)
    ensures forall x :: x in seen' <==> x in extended
  {
    extended, seen' := target, seen;
    var i := 0;
    while i < |source|
      invariant 0 <= i <= |source|
      invariant Merge(extended, source[i..]) == Merge(target, source)
      invariant forall x :: x in seen' <==> x in extended
    {
      assert source[i..][1..] == source[i + 1..];
      if source[i] !in seen' {
        seen' := seen' + {source[i]};
        extended := extended + [source[i]];
      }
      i := i + 1;
    }
  }

  /** Adding one scope whose needed dependencies are already listed keeps the order. */
  lemma OrderedAppend(ctx: Context, pending: seq<Key>, k: Key)
    requires Ordered(ctx, pending)
    requires forall c {:trigger Child(ctx, k, c)} :: Child(ctx, k, c) && NeedsWork(ctx, c) ==> c in pending
    ensures Ordered(ctx, pending + [k])
  {
    var longer := pending + [k];
    forall i: nat, c | i < |longer| && Child(ctx, longer[i], c) && NeedsWork(ctx, c) ensures c in longer[..i] {
      if i < |pending| {
        assert Child(ctx, pending[i], c);
        assert longer[..i] == pending[..i];
      } else {
        assert longer[..i] == pending;
      }
    }
  }

  lemma {:induction false} MergeOrdered(ctx: Context, target: seq<Key>, done: seq<Key>, source: seq<Key>)
    requires Ordered(ctx, target) && Ordered(ctx, done + source) && forall x :: x in done ==> x in target
    ensures Ordered(ctx, Merge(target, source))
    decreases |source|
  {
    if source != [] {
      var k := source[0];
      var next := if k in target then target else target + [k];
      if k !in target {
        var all := done + source;
        forall c | Child(ctx, k, c) && NeedsWork(ctx, c) ensures c in target {
          assert all[|done|] == k;
          assert c in all[..|done|];
          assert all[..|done|] == done;
        }
        OrderedAppend(ctx, target, k);
      }
      assert done + source == (done + [k]) + source[1..];
      MergeOrdered(ctx, next, done + [k], source[1..]);
    }
  }

  lemma MergeCollected(ctx: Context, root: Key, visiting: set<Key>, target: seq<Key>, source: seq<Key>)
    requires Collected(ctx, root, visiting, target) && Collected(ctx, root, visiting, source)
    ensures Collected(ctx, root, visiting, Merge(target, source))
  {
    MergeMembers(target, source);
    assert [] + source == source;
    MergeOrdered(ctx, target, [], source);
  }

  /** Merging steps mirrors merging keys, because within one game a step determines its key. */
  lemma {:induction false} MergeSteps(target: seq<Key>, source: seq<Key>, root: Key)
    requires forall k :: k in target || k in source ==> SameGame(k, root)
    ensures Merge(StepsOf(target), StepsOf(source)) == StepsOf(Merge(target, source))
    decreases |source|
  {
    if source != [] {
      var k := source[0];
      assert StepsOf(source)[1..] == StepsOf(source[1..]);
      assert k in target <==> StepOf(k) in StepsOf(target) by {
        if k in target {
          var i :| 0 <= i < |target| && target[i] == k;
          assert StepsOf(target)[i] == StepOf(k);
        }
        if StepOf(k) in StepsOf(target) {
          var i :| 0 <= i < |target| && StepsOf(target)[i] == StepOf(k);
          assert target[i] in target && k in source;
          assert target[i] == k;
        }
      }
      assert StepsOf(target + [k]) == StepsOf(target) + [StepOf(k)];
      MergeSteps(if k in target then target else target + [k], source[1..], root);
    }
  }

  // --- edges --------------------------------------------------------------------------------

  lemma {:induction false} EdgesSameGame(ctx: Context, scope: ExportScope, deps: seq<EnsureDependency>, c: Key)
    requires c in EdgesOf(ctx, scope, deps)
    ensures c.scope.gameId == scope.gameId && c.scope.perspective == scope.perspective
    ensures exists dep :: dep in deps && c.analyticId == dep.analyticId && c.scope in DependencyScopes(ctx, scope, dep)
    decreases |deps|
  {
    var head := KeysAt(deps[0].analyticId, DependencyScopes(ctx, scope, deps[0]));
    if c in head {
      assert deps[0] in deps;
    } else {
      EdgesSameGame(ctx, scope, deps[1..], c);
      var dep :| dep in deps[1..] && c.analyticId == dep.analyticId && c.scope in DependencyScopes(ctx, scope, dep);
      assert dep in deps;
    }
  }

  lemma ChildSameGame(ctx: Context, k: Key, c: Key)
    requires Child(ctx, k, c)
    ensures SameGame(c, k)
  {
    EdgesSameGame(ctx, k.scope, ctx.registry[k.analyticId].dependenciesFor(k.scope), c);
  }

  /** What one declared edge names: the same game and perspective, the turn moved by the edge's
      delta, and the same player, none, or one on the roster of the target turn; without that
      roster an edge to all players names none. */
  predicate Names(ctx: Context, scope: ExportScope, dep: EnsureDependency, c: Key) {
    && c.analyticId == dep.analyticId && c.scope.gameId == scope.gameId && c.scope.perspective == scope.perspective
    && c.scope.turn == scope.turn + dep.turnDelta
    && match dep.player
       case SamePlayer => c.scope.playerId == scope.playerId
       case NoPlayer => c.scope.playerId.None?
       case AllPlayers =>
         if c.scope.turn in ctx.turns then
           c.scope.playerId.Some? && c.scope.playerId.value in ctx.turns[c.scope.turn].roster
         else c.scope.playerId.None?
  }

  lemma NamedByOne(ctx: Context, scope: ExportScope, dep: EnsureDependency, c: Key)
    ensures c in KeysAt(dep.analyticId, DependencyScopes(ctx, scope, dep)) <==> Names(ctx, scope, dep, c)
  {
    var scopes := DependencyScopes(ctx, scope, dep);
    var keys := KeysAt(dep.analyticId, scopes);
    var turn := scope.turn + dep.turnDelta;
    if Names(ctx, scope, dep, c) {
      if dep.player.AllPlayers? && turn in ctx.turns {
        var i :| 0 <= i < |ctx.turns[turn].roster| && ctx.turns[turn].roster[i] == c.scope.playerId.value;
        assert scopes[i] == c.scope && keys[i] == c;
      } else {
        assert scopes[0] == c.scope && keys[0] == c;
      }
    }
    if c in keys {
      var i :| 0 <= i < |keys| && keys[i] == c;
      assert scopes[i] == c.scope;
    }
  }

  lemma {:induction false} NamedByList(ctx: Context, scope: ExportScope, deps: seq<EnsureDependency>, c: Key)
    ensures c in EdgesOf(ctx, scope, deps) <==> exists dep :: dep in deps && Names(ctx, scope, dep, c)
    decreases |deps|
  {
    if deps != [] {
      NamedByOne(ctx, scope, deps[0], c);
      NamedByList(ctx, scope, deps[1..], c);
      hide Names;
      assert forall dep :: dep in deps <==> dep == deps[0] || dep in deps[1..];
    }
  }

  /** The edges of a scope are exactly what its declared dependencies name. */
  lemma EdgesAreDeclared(ctx: Context, k: Key, c: Key)
    ensures c in Edges(ctx, k) <==>
            && k.analyticId in ctx.registry && !ctx.registry[k.analyticId].isEmpty
            && exists dep :: dep in ctx.registry[k.analyticId].dependenciesFor(k.scope) && Names(ctx, k.scope, dep, c)
  {
    if Usable(ctx, k.analyticId) {
      NamedByList(ctx, k.scope, ctx.registry[k.analyticId].dependenciesFor(k.scope), c);
    }
  }

  // --- the finite part of the graph a walk can enter ----------------------------------------

  /** The walk only enters stored turns and usable analytics. */
  ghost predicate Closed(ctx: Context, universe: set<Key>) {
    forall k, c {:trigger Child(ctx, k, c)} ::
        k in universe && Child(ctx, k, c) && c.scope.turn in ctx.turns && Usable(ctx, c.analyticId) ==> c in universe
  }

  ghost function Rosters(ctx: Context): set<Option<int>> {
    set t, i | t in ctx.turns && 0 <= i < |ctx.turns[t].roster| :: Some(ctx.turns[t].roster[i])
  }

  ghost function Universe(ctx: Context, root: Key): set<Key> {
    {root} + set a, t, p | a in ctx.registry && t in ctx.turns && p in Rosters(ctx) + {None, root.scope.playerId}
             :: Key(a, ExportScope(root.scope.gameId, root.scope.perspective, t, p))
  }

  /** Whatever the ensure edges are, a walk stays inside a finite universe. */
  lemma UniverseIsClosed(ctx: Context, root: Key)
    ensures Closed(ctx, Universe(ctx, root)) && root in Universe(ctx, root)
  {
    forall k, c | k in Universe(ctx, root) && Child(ctx, k, c) && c.scope.turn in ctx.turns && Usable(ctx, c.analyticId)
      ensures c in Universe(ctx, root)
    {
      var deps := ctx.registry[k.analyticId].dependenciesFor(k.scope);
      EdgesSameGame(ctx, k.scope, deps, c);
      var dep :| dep in deps && c.analyticId == dep.analyticId && c.scope in DependencyScopes(ctx, k.scope, dep);
      PlayerKnown(ctx, k.scope, dep, c.scope);
      assert c == Key(c.analyticId, ExportScope(root.scope.gameId, root.scope.perspective, c.scope.turn,
             c.scope.playerId));
    }
  }

  lemma PlayerKnown(ctx: Context, scope: ExportScope, dep: EnsureDependency, c: ExportScope)
    requires c in DependencyScopes(ctx, scope, dep)
    ensures c.playerId in Rosters(ctx) + {None, scope.playerId}
  {
    if dep.player.AllPlayers? && scope.turn + dep.turnDelta in ctx.turns {
      var t := scope.turn + dep.turnDelta;
      var i :| 0 <= i < |ctx.turns[t].roster| && c == scope.(turn := t, playerId := Some(ctx.turns[t].roster[i]));
      assert t in ctx.turns && 0 <= i < |ctx.turns[t].roster|;
    }
  }
}
