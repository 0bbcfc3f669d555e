/** Filling the holes in the stored turns before a plan is walked, and why that suffices. */
module TurnFill {
  import opened Prelude
  import opened DependencyWalk
  import opened DependencyWalker

  /** What a login-backed fetch of one turn did. */
  datatype Fetch = NothingFetched | Fetched(stored: Option<TurnInfo>)

  datatype ChainFill = ChainFill(fetchedTurns: seq<int>, stillMissing: Option<int>, autoFetchUnavailable: bool)

  datatype Prepared = Ready | FillFailed(fill: ChainFill) | WalkUnavailable(turn: int) | WalkRaised(out: Outcome)

  /** The stored turns of one game, which a fetch extends. */
  class TurnStore {
    var turns: map<int, TurnInfo>

    constructor (turns: map<int, TurnInfo>)
      ensures this.turns == turns
    {
      this.turns := turns;
    }
  }

  ghost predicate StoresOnlyMore(before: map<int, TurnInfo>, after: map<int, TurnInfo>) {
    forall t :: t in before ==> t in after && after[t] == before[t]
  }

  ghost predicate Contiguous(turns: map<int, TurnInfo>, floor: int, turn: int) {
    forall t :: floor <= t < turn ==> t in turns
  }

  /** Nothing below the start is fetched or missed, and the turns from the start on are stored up
      to the scope, or up to the first hole that could not be fetched. */
  ghost predicate FilledFrom(start: int, turns: map<int, TurnInfo>, turn: int, fill: ChainFill) {
    && (forall t :: t in fill.fetchedTurns ==> start <= t < turn)
    && match fill.stillMissing
       case None => Contiguous(turns, start, turn)
       case Some(hole) => start <= hole < turn && hole !in turns && Contiguous(turns, start, hole)
  }

  /** Ascending missing turns on `[floor, turn)`. */
  method MissingChainTurns(turns: map<int, TurnInfo>, floor: int, turn: int) returns (missing: seq<int>)
    ensures forall t :: t in missing <==> floor <= t < turn && t !in turns
    ensures forall i, j :: 0 <= i < j < |missing| ==> missing[i] < missing[j]
  {
    missing := [];
    var t := floor;
    while t < turn
      invariant floor <= t
      invariant t <= turn || t == floor
      invariant forall x :: x in missing <==> floor <= x < t && x !in turns
      invariant forall i, j :: 0 <= i < j < |missing| ==> missing[i] < missing[j]
    {
      if t !in turns {
        assert forall i :: 0 <= i < |missing| ==> missing[i] in missing;
        missing := missing + [t];
      }
      t := t + 1;
    }
  }

  /** Fetch every hole below the scope, stopping at the first failure.  `fetch` is the login
      hook, absent without a login. */
  method FillMissing(store: TurnStore, ctx: Context, scope: ExportScope, fetch: Option<int -> Fetch>)
          returns (fill: ChainFill)
    requires ctx.turns == store.turns
    modifies store
    ensures StoresOnlyMore(old(store.turns), store.turns)
    ensures FilledFrom(TurnFloor(ctx, scope), store.turns, scope.turn, fill)
    ensures fill.autoFetchUnavailable <==> fetch.None? && fill.stillMissing.Some?
    ensures fill.autoFetchUnavailable ==> store.turns == old(store.turns)
    ensures forall t :: t in fill.fetchedTurns <==> t in store.turns && t !in old(store.turns)
    ensures scope.turn in ctx.turns ==>
            var n := ctx.turns[scope.turn].acceleratedTurns;
            FilledFrom(if 0 < n <= scope.turn then n else 1, store.turns, scope.turn, fill)
    ensures scope.turn !in ctx.turns && ctx.ambientTurn in ctx.turns ==>
            var n := ctx.turns[ctx.ambientTurn].acceleratedTurns;
            FilledFrom(if 0 < n <= scope.turn then n else 1, store.turns, scope.turn, fill)
    ensures scope.turn !in ctx.turns && ctx.ambientTurn !in ctx.turns ==>
            FilledFrom(1, store.turns, scope.turn, fill)
  {
    FloorByTurn(ctx, scope);
    hide TurnFloor;
    var floor := TurnFloor(ctx, scope);
    var missing := MissingChainTurns(store.turns, floor, scope.turn);
    FilledEnds(store.turns, store.turns, missing, floor, scope.turn, 0, missing != []);
    if missing == [] { return ChainFill([], None, false); }
    if fetch.None? { return ChainFill([], Some(missing[0]), true); }
    var fetched: seq<int> := [];
    var i := 0;
    while i < |missing|
      invariant 0 <= i <= |missing| && fetched == missing[..i]
      invariant FilledUpTo(old(store.turns), store.turns, missing, i)
      invariant StoresOnlyMore(old(store.turns), store.turns)
    {
      var t := missing[i];
      assert t in missing && t !in missing[..i];
      assert t !in store.turns;
      var got := fetch.value(t);
      if got.NothingFetched? || got.stored.None? {
        FilledEnds(old(store.turns), store.turns, missing, floor, scope.turn, i, false);
        return ChainFill(fetched, Some(t), false);
      }
      store.turns := store.turns[t := got.stored.value];
      fetched := fetched + [t];
      i := i + 1;
    }
    FilledEnds(old(store.turns), store.turns, missing, floor, scope.turn, i, false);
    return ChainFill(fetched, None, false);
  }

  lemma FloorByTurn(ctx: Context, scope: ExportScope)
    ensures scope.turn in ctx.turns ==>
            var n := ctx.turns[scope.turn].acceleratedTurns; TurnFloor(ctx, scope) == if 0 < n <= scope.turn then n
                else 1
    ensures scope.turn !in ctx.turns && ctx.ambientTurn in ctx.turns ==>
            var n := ctx.turns[ctx.ambientTurn].acceleratedTurns;
            TurnFloor(ctx, scope) == if 0 < n <= scope.turn then n else 1
    ensures scope.turn !in ctx.turns && ctx.ambientTurn !in ctx.turns ==> TurnFloor(ctx, scope) == 1
  {}

  /** The holes, in ascending order. */
  ghost predicate AreHoles(turns: map<int, TurnInfo>, floor: int, turn: int, missing: seq<int>) {
    && (forall t :: t in missing <==> floor <= t < turn && t !in turns)
    && (forall j, k :: 0 <= j < k < |missing| ==> missing[j] < missing[k])
  }

  /** The holes before the `i`th have been filled, and nothing else. */
  ghost predicate FilledUpTo(before: map<int, TurnInfo>, after: map<int, TurnInfo>, missing: seq<int>, i: nat) {
    i <= |missing| && after.Keys == before.Keys + set k | 0 <= k < i :: missing[k]
  }

  /** Where filling ends, at a hole or past the last one, everything before it is stored. */
  lemma FilledEnds(before: map<int, TurnInfo>, after: map<int, TurnInfo>, missing: seq<int>, floor: int, turn: int,
          i: nat, unavailable: bool)
    requires AreHoles(before, floor, turn, missing) && FilledUpTo(before, after, missing, i)
    ensures FilledFrom(floor, after, turn, ChainFill(missing[..i],
                                                     if i < |missing| then Some(missing[i]) else None, unavailable))
    ensures forall t :: t in missing[..i] <==> t in after && t !in before
  {
    forall t | t in missing[..i] ensures t in missing && t in after {
      var k :| 0 <= k < i && missing[k] == t;
    }
    if i < |missing| { assert missing[i] in missing; }
    forall t | floor <= t < (if i < |missing| then missing[i] else turn) ensures t in after {
      if t !in before { assert t in missing; }
    }
  }

  // --- sufficiency --------------------------------------------------------------------------

  /** Below a stored, contiguous root everything a path visits is stored, and the floor of every
      scope visited is the floor of the root: the walk never falls below it. */
  lemma {:induction false} PathStaysStored(ctx: Context, root: Key, force: bool, acceleratedTurns: int,
          path: seq<Key>, n: nat)
    requires Regular(ctx, acceleratedTurns) && root.scope.turn in ctx.turns
    requires Contiguous(ctx.turns, TurnFloor(ctx, root.scope), root.scope.turn)
    requires WorkPath(ctx, root, force, path) && n < |path|
    ensures path[n].scope.turn in ctx.turns && path[n].scope.turn <= root.scope.turn
    ensures TurnFloor(ctx, path[n].scope) == TurnFloor(ctx, root.scope)
    ensures n > 0 ==> TurnFloor(ctx, root.scope) <= path[n].scope.turn
    ensures n > 0 && 0 < acceleratedTurns <= root.scope.turn ==> acceleratedTurns <= path[n].scope.turn
    ensures n > 0 ==> 1 <= path[n].scope.turn
  {
    if n > 0 {
      PathStaysStored(ctx, root, force, acceleratedTurns, path, n - 1);
      assert Hop(ctx, root, force, path, n);
      ChildTurn(ctx, acceleratedTurns, path[n - 1], path[n]);
    }
  }

  /** Turn fill is sufficient: once the root turn is stored and nothing is missing above the
      floor, a walk cannot run into a turn that is not stored. */
  lemma FilledWalkNeverMissesATurn(ctx: Context, root: Key, force: bool, acceleratedTurns: int, out: Outcome)
    requires Regular(ctx, acceleratedTurns) && root.scope.turn in ctx.turns
    requires Contiguous(ctx.turns, TurnFloor(ctx, root.scope), root.scope.turn)
    requires Meaning(ctx, root, force, {}, out)
    ensures !out.TurnNotStored?
  {
    hide Regular, Contiguous, ReachedEdge, TurnFloor;
    if out.TurnNotStored? {
      var k, c :| ReachedEdge(ctx, root, force, k, c) && c.scope.turn == out.turn && out.turn !in ctx.turns;
      ReachedTurnIsStored(ctx, root, force, acceleratedTurns, k, c);
    }
  }

  lemma ReachedTurnIsStored(ctx: Context, root: Key, force: bool, acceleratedTurns: int, k: Key, c: Key)
    requires Regular(ctx, acceleratedTurns) && root.scope.turn in ctx.turns
    requires Contiguous(ctx.turns, TurnFloor(ctx, root.scope), root.scope.turn)
    requires ReachedEdge(ctx, root, force, k, c)
    ensures c.scope.turn in ctx.turns
  {
    EnteredIsReached(ctx, root, force, k);
    var path :| WorkPath(ctx, root, force, path) && path[|path| - 1] == k;
    assert path != [];
    hide Enters, Regular, WorkPath, Contiguous, Reaches, Works, TurnFloor, Child;
    PathStaysStored(ctx, root, force, acceleratedTurns, path, |path| - 1);
    FloorIsStored(ctx, root, k, acceleratedTurns, c);
  }

  lemma FloorIsStored(ctx: Context, root: Key, k: Key, acceleratedTurns: int, c: Key)
    requires Regular(ctx, acceleratedTurns) && root.scope.turn in ctx.turns && Child(ctx, k, c)
    requires Contiguous(ctx.turns, TurnFloor(ctx, root.scope), root.scope.turn)
    requires k.scope.turn <= root.scope.turn && TurnFloor(ctx, k.scope) == TurnFloor(ctx, root.scope)
    ensures c.scope.turn in ctx.turns
  {
    ChildTurn(ctx, acceleratedTurns, k, c);
  }

  /** Walk, fill when a turn is missing, and walk again.  In a regular game whose root turn is
      stored, and with fetches that bring the same settings, preparing ends ready or with the
      first hole that could not be fetched, or raises what the walk itself raises. */
  method PrepareChainTurns(store: TurnStore, ctx: Context, key: Key, force: bool, fetch: Option<int -> Fetch>,
          ghost acceleratedTurns: int)
    returns (out: Prepared)
    requires ctx.turns == store.turns
    modifies store
    ensures StoresOnlyMore(old(store.turns), store.turns)
    ensures out.Ready? ==> !HasWorkCycle(ctx.(turns := store.turns), key, force)
    ensures out.FillFailed? ==> out.fill.stillMissing.Some?
    ensures Regular(ctx.(turns := store.turns), acceleratedTurns) && key.scope.turn in ctx.turns ==>
            !out.WalkUnavailable?
  {
    var walk := WalkDependencyTree(ctx, key, force);
    if walk.Walked? { return Ready; }
    if !walk.TurnNotStored? { return WalkRaised(walk); }
    var fill := FillMissing(store, ctx, key.scope, fetch);
    if fill.stillMissing.Some? { return FillFailed(fill); }
    var filled := ctx.(turns := store.turns);
    var again := WalkDependencyTree(filled, key, force);
    if Regular(filled, acceleratedTurns) && key.scope.turn in ctx.turns {
      assert TurnFloor(filled, key.scope) == TurnFloor(ctx, key.scope);
      FilledWalkNeverMissesATurn(filled, key, force, acceleratedTurns, again);
    }
    match again {
      case Walked(_, _) => return Ready;
      case TurnNotStored(turn) => return WalkUnavailable(turn);
      case _ => return WalkRaised(again);
    }
  }
}
