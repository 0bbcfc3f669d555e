/** The walk that finds aborted work below a waiting node: what its stack and sets mean. */
module RestartWalk {
  import opened Prelude
  import opened Scheduler

  lemma RefreshKeepsTable(s: Scheduler, g: RunId)
    requires g in s.runs
    ensures Refresh(s, g).nodes == s.nodes && Refresh(s, g).runs[g].scope == s.runs[g].scope
  {
    var failed := FailedDependencyError(s, s.runs[g].dependencyScopes);
    if !s.runs[g].BlocksReadinessRefresh() && failed.Some? {
      SettleKeepsTable(s, g, Failed, failed);
    }
    hide Settle, FailedDependencyError;
  }

  lemma SettleKeepsTable(s: Scheduler, g: RunId, state: NodeState, error: Option<Failure>)
    requires g in s.runs
    ensures Settle(s, g, state, error).nodes == s.nodes && Settle(s, g, state, error).runs[g].scope == s.runs[g].scope
  {
  }

  ghost predicate Restartable(s: Scheduler, g: RunId, d: ComputeScope)
    requires g in s.runs
  {
    s.AbortFailedAt(d) && RestartBundle(s, g, d).Some?
  }

  ghost predicate WaitingAt(s: Scheduler, d: ComputeScope) { s.Has(d) && s.Node(d).state.WaitingDeps? }

  /** Everything on the stack or seen is reached through waiting nodes; everything found is an
      aborted dependency of a reached node, once. */
  ghost predicate Sound(s: Scheduler, g: RunId, stack: seq<ComputeScope>, seen: set<ComputeScope>,
          found: seq<ComputeScope>)
    requires g in s.runs
  {
    && (forall x :: x in stack ==> s.Has(x) && WaitingReach(s, s.runs[g].scope, x))
    && (forall x :: x in seen ==> s.Has(x) && WaitingReach(s, s.runs[g].scope, x))
    && NoDup(found) && (forall d :: d in found ==> d in s.nodes && AbortedDependency(s, g, d))
  }

  /** One dependency of a seen node has been dealt with. */
  ghost predicate Handled(s: Scheduler, g: RunId, d: ComputeScope, stack: seq<ComputeScope>, seen: set<ComputeScope>,
          found: seq<ComputeScope>)
    requires g in s.runs
  {
    && (Restartable(s, g, d) ==> d in found)
    && (WaitingAt(s, d) && !s.AbortFailedAt(d) ==> d in seen || d in stack)
  }

  ghost predicate Explores(s: Scheduler, g: RunId, stack: seq<ComputeScope>, seen: set<ComputeScope>,
          found: seq<ComputeScope>)
    requires g in s.runs
  {
    && Sound(s, g, stack, seen, found)
    && (s.runs[g].scope in seen || s.runs[g].scope in stack)
    && (forall x, d {:trigger DependsOn(s, x, d)} :: x in seen && DependsOn(s, x, d) ==>
         Handled(s, g, d, stack, seen, found))
  }

  /** As `Explores`, but of the node `current` only the first `i` dependencies are dealt with. */
  ghost predicate Expands(s: Scheduler, g: RunId, current: ComputeScope, i: nat, stack: seq<ComputeScope>,
          seen: set<ComputeScope>, found: seq<ComputeScope>)
    requires g in s.runs
  {
    && Sound(s, g, stack, seen, found)
    && (s.runs[g].scope in seen || s.runs[g].scope in stack)
    && current in seen && s.Has(current) && i <= |s.Node(current).dependencyScopes|
    && (forall x, d {:trigger DependsOn(s, x, d)} :: x in seen && x != current && DependsOn(s, x, d) ==>
         Handled(s, g, d, stack, seen, found))
    && (forall k :: 0 <= k < i ==> Handled(s, g, s.Node(current).dependencyScopes[k], stack, seen, found))
  }

  lemma RootReached(s: Scheduler, root: ComputeScope)
    requires s.Has(root)
    ensures WaitingReach(s, root, root)
  {
    assert WaitingPath(s, [root]);
  }

  lemma ReachExtends(s: Scheduler, root: ComputeScope, x: ComputeScope, d: ComputeScope)
    requires WaitingReach(s, root, x) && DependsOn(s, x, d) && WaitingAt(s, d)
    ensures WaitingReach(s, root, d)
  {
    var path :| WaitingPath(s, path) && path[0] == root && path[|path| - 1] == x;
    var longer := path + [d];
    forall i | 0 < i < |longer|
      ensures s.Node(longer[i]).state.WaitingDeps? && longer[i] in s.Node(longer[i - 1]).dependencyScopes
    {
      if i < |path| { assert longer[i] == path[i]; }
    }
    assert WaitingPath(s, longer);
  }

  lemma TopIsKnown(s: Scheduler, g: RunId, stack: seq<ComputeScope>, seen: set<ComputeScope>, found: seq<ComputeScope>)
    requires g in s.runs && stack != [] && Explores(s, g, stack, seen, found)
    ensures s.Has(stack[|stack| - 1]) && stack[|stack| - 1] in s.nodes
  {
    assert stack[|stack| - 1] in stack;
  }

  lemma ExpandsPast(s: Scheduler, g: RunId, current: ComputeScope, i: nat, stack: seq<ComputeScope>,
          seen: set<ComputeScope>, found: seq<ComputeScope>)
    requires g in s.runs && Expands(s, g, current, i, stack, seen, found) && i < |s.Node(current).dependencyScopes|
    requires Handled(s, g, s.Node(current).dependencyScopes[i], stack, seen, found)
    ensures Expands(s, g, current, i + 1, stack, seen, found)
  {
  }

  lemma SeenAgain(s: Scheduler, g: RunId, stack: seq<ComputeScope>, seen: set<ComputeScope>, found: seq<ComputeScope>)
    requires g in s.runs && stack != [] && Explores(s, g, stack, seen, found) && stack[|stack| - 1] in seen
    ensures Explores(s, g, stack[..|stack| - 1], seen, found)
  {
    StackPop(stack);
  }

  lemma StackPop(stack: seq<ComputeScope>)
    requires stack != []
    ensures forall x :: x in stack <==> x in stack[..|stack| - 1] || x == stack[|stack| - 1]
  {
    assert stack == stack[..|stack| - 1] + [stack[|stack| - 1]];
  }

  lemma NewlySeen(s: Scheduler, g: RunId, stack: seq<ComputeScope>, seen: set<ComputeScope>, found: seq<ComputeScope>)
    requires g in s.runs && stack != [] && Explores(s, g, stack, seen, found) && stack[|stack| - 1] !in seen
    ensures Expands(s, g, stack[|stack| - 1], 0, stack[..|stack| - 1], seen + {stack[|stack| - 1]}, found)
  {
    StackPop(stack);
    assert stack[|stack| - 1] in stack;
  }

  lemma ExpandsRestart(s: Scheduler, g: RunId, current: ComputeScope, i: nat, stack: seq<ComputeScope>,
          seen: set<ComputeScope>, found: seq<ComputeScope>)
    requires g in s.runs && Expands(s, g, current, i, stack, seen, found) && i < |s.Node(current).dependencyScopes|
    requires Restartable(s, g, s.Node(current).dependencyScopes[i]) && s.Node(current).dependencyScopes[i] !in found
    ensures Expands(s, g, current, i + 1, stack, seen, found + [s.Node(current).dependencyScopes[i]])
  {
    var d := s.Node(current).dependencyScopes[i];
    AppendMembers(found, d);
    assert DependsOn(s, current, d);
    assert AbortedDependency(s, g, d);
  }

  lemma ExpandsWaiting(s: Scheduler, g: RunId, current: ComputeScope, i: nat, stack: seq<ComputeScope>,
          seen: set<ComputeScope>, found: seq<ComputeScope>)
    requires g in s.runs && Expands(s, g, current, i, stack, seen, found) && i < |s.Node(current).dependencyScopes|
    requires WaitingAt(s, s.Node(current).dependencyScopes[i])
    ensures Expands(s, g, current, i + 1, stack + [s.Node(current).dependencyScopes[i]], seen, found)
  {
    var d := s.Node(current).dependencyScopes[i];
    assert DependsOn(s, current, d);
    ReachExtends(s, s.runs[g].scope, current, d);
  }

  lemma Expanded(s: Scheduler, g: RunId, current: ComputeScope, stack: seq<ComputeScope>, seen: set<ComputeScope>,
          found: seq<ComputeScope>)
    requires g in s.runs && s.Has(current) && Expands(s, g, current, |s.Node(current).dependencyScopes|, stack, seen,
             found)
    ensures Explores(s, g, stack, seen, found)
  {
  }

  /** With an empty stack every node reachable through waiting nodes has been seen. */
  lemma {:induction false} AllSeen(s: Scheduler, g: RunId, seen: set<ComputeScope>, found: seq<ComputeScope>,
          path: seq<ComputeScope>)
    requires g in s.runs && Explores(s, g, [], seen, found) && WaitingPath(s, path) && path[0] == s.runs[g].scope
    ensures path[|path| - 1] in seen
    decreases |path|
  {
    if |path| > 1 {
      var front := path[..|path| - 1];
      assert forall i :: 0 <= i < |front| ==> front[i] == path[i];
      AllSeen(s, g, seen, found, front);
      assert DependsOn(s, front[|front| - 1], path[|path| - 1]);
    }
  }

  /** What was found is exactly the aborted work below the node. */
  lemma Explored(s: Scheduler, g: RunId, seen: set<ComputeScope>, found: seq<ComputeScope>)
    requires g in s.runs && Explores(s, g, [], seen, found)
    ensures NoDup(found) && forall d :: d in found <==> d in AbortedBelow(s, g)
  {
    forall d | d in AbortedBelow(s, g) ensures d in found {
      var via :| WaitingReach(s, s.runs[g].scope, via) && DependsOn(s, via, d);
      var path :| WaitingPath(s, path) && path[0] == s.runs[g].scope && path[|path| - 1] == via;
      AllSeen(s, g, seen, found, path);
    }
  }

  ghost function Requests(s: Scheduler, g: RunId, found: seq<ComputeScope>): seq<Callback>
    requires g in s.runs && forall d :: d in found ==> s.Has(d)
  {
    seq(|found|, i requires 0 <= i < |found| => RestartRequest(s, g, found[i]))
  }

  lemma RequestsAppend(s: Scheduler, g: RunId, found: seq<ComputeScope>, d: ComputeScope)
    requires g in s.runs && s.Has(d) && forall x :: x in found ==> s.Has(x)
    ensures Requests(s, g, found + [d]) == Requests(s, g, found) + [RestartRequest(s, g, d)]
  {
  }

  /** Distinct scopes make distinct requests, so listing them in any order is the same. */
  lemma RequestsAreRestarts(s: Scheduler, g: RunId, found: seq<ComputeScope>)
    requires g in s.runs && NoDup(found) && forall d :: d in found <==> d in AbortedBelow(s, g)
    ensures multiset(Requests(s, g, found)) == multiset(set d | d in AbortedBelow(s, g) && s.Has(d) ::
            RestartRequest(s, g, d))
  {
    RequestsOfSet(s, g, found, AbortedBelow(s, g));
  }

  lemma {:induction false} RequestsOfSet(s: Scheduler, g: RunId, found: seq<ComputeScope>, scopes: set<ComputeScope>)
    requires g in s.runs && NoDup(found) && (forall d :: d in found <==> d in scopes) && forall d :: d in scopes ==>
             s.Has(d)
    ensures multiset(Requests(s, g, found)) == multiset(set d | d in scopes && s.Has(d) :: RestartRequest(s, g, d))
    decreases |found|
  {
    var all := set d | d in scopes && s.Has(d) :: RestartRequest(s, g, d);
    if found == [] {
      assert all == {};
    } else {
      var front, d := found[..|found| - 1], found[|found| - 1];
      assert found == front + [d];
      forall i: nat, j: nat | i < j < |front| ensures Differ(front, i, j) { assert Differ(found, i, j); }
      forall i: nat | i < |front| ensures front[i] != d { assert Differ(found, i, |front|); }
      var rest := scopes - {d};
      RequestsOfSet(s, g, front, rest);
      RequestsAppend(s, g, front, d);
      var others := set x | x in rest && s.Has(x) :: RestartRequest(s, g, x);
      assert all == others + {RestartRequest(s, g, d)};
      assert RestartRequest(s, g, d) !in others;
    }
  }
}
