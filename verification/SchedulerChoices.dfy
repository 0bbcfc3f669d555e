/**
What a dispatch pass chooses: the first admitted node whose dependencies are complete, begun in the
way its profile step asks for, and at most one step for the pool.
*/
module SchedulerChoices {
  import opened Prelude
  import opened Scheduler
  import opened SchedulerPasses
  import opened SchedulerTheorems
  import opened SchedulerFaults

  // --- one sweep ----------------------------------------------------------------------------

  /** The node may begin: it is ready, its dependencies are complete and the gate admits it. */
  predicate Eligible(s: Scheduler, admit: (ComputeScope, nat) -> bool, round: nat, x: ComputeScope) {
    && x in s.nodes && s.nodes[x] in s.runs && s.runs[s.nodes[x]].state.Ready?
    && (forall d :: d in s.runs[s.nodes[x]].dependencyScopes ==> s.CompleteAt(d))
    && admit(x, round)
  }

  /** Passing over a head that may not begin changes neither which others may nor their order. */
  lemma HeadPassedOver(s: Scheduler, admit: (ComputeScope, nat) -> bool, round: nat, budget: nat)
          returns (next: Scheduler)
    requires Keyed(s) && budget > 0 && s.readyQueue != [] && !Eligible(s, admit, round, s.readyQueue[0])
    ensures Keyed(next) && Pick(s, admit, round, budget) == Pick(next, admit, round, budget - 1)
    ensures |s.readyQueue| - 1 <= |next.readyQueue| && next.readyQueue[..|s.readyQueue| - 1] == s.readyQueue[1..]
    ensures forall x :: Eligible(next, admit, round, x) <==> Eligible(s, admit, round, x)
  {
    var x := s.readyQueue[0];
    if !s.IsReady(x) {
      next := TakeHead(s);
    } else {
      PickStep(s, admit, round, budget);
      if !s.DepsComplete(s.Node(x)) {
        next := DemoteHead(s);
        DemotedEligible(s, admit, round);
      } else {
        next := RotateHead(s);
      }
    }
  }

  lemma DemotedEligible(s: Scheduler, admit: (ComputeScope, nat) -> bool, round: nat)
    requires Keyed(s) && s.readyQueue != [] && s.IsReady(s.readyQueue[0])
    requires !s.DepsComplete(s.Node(s.readyQueue[0]))
    ensures Keyed(DemoteHead(s))
    ensures forall x :: Eligible(DemoteHead(s), admit, round, x) <==> Eligible(s, admit, round, x)
  {
    var s' := DemoteHead(s);
    forall x ensures Eligible(s', admit, round, x) <==> Eligible(s, admit, round, x) {
      assert forall d :: s'.CompleteAt(d) <==> s.CompleteAt(d);
    }
  }

  /** A sweep chooses the first entry of the queue that may begin. */
  lemma {:induction false} PickIsFirst(s: Scheduler, admit: (ComputeScope, nat) -> bool, round: nat, budget: nat,
          k: nat)
    requires Keyed(s) && k < budget <= |s.readyQueue| && Eligible(s, admit, round, s.readyQueue[k])
    requires forall j :: 0 <= j < k ==> !Eligible(s, admit, round, s.readyQueue[j])
    ensures Pick(s, admit, round, budget).1 == Some(s.readyQueue[k])
    decreases budget
  {
    if k > 0 {
      var next := HeadPassedOver(s, admit, round, budget);
      assert forall j :: 0 <= j < |s.readyQueue| - 1 ==> next.readyQueue[j] == s.readyQueue[1..][j];
      PickIsFirst(next, admit, round, budget - 1, k - 1);
    } else if s.IsReady(s.readyQueue[0]) {
      PickStep(s, admit, round, budget);
    }
  }

  /** A sweep chooses nothing exactly if no entry it looks at may begin. */
  lemma {:induction false} PickIsNone(s: Scheduler, admit: (ComputeScope, nat) -> bool, round: nat, budget: nat)
    requires Keyed(s) && budget <= |s.readyQueue|
    ensures Pick(s, admit, round, budget).1.None? <==>
            forall j :: 0 <= j < budget ==> !Eligible(s, admit, round, s.readyQueue[j])
    decreases budget
  {
    if budget > 0 {
      if Eligible(s, admit, round, s.readyQueue[0]) {
        PickIsFirst(s, admit, round, budget, 0);
      } else {
        var next := HeadPassedOver(s, admit, round, budget);
        assert forall j :: 0 <= j < |s.readyQueue| - 1 ==> next.readyQueue[j] == s.readyQueue[1..][j];
        PickIsNone(next, admit, round, budget - 1);
        forall j | 0 < j < budget
          ensures Eligible(s, admit, round, s.readyQueue[j]) == Eligible(next, admit, round, next.readyQueue[j - 1]) {}
      }
    }
  }

  // --- a whole pass -------------------------------------------------------------------------

  /** The run was begun in the pass: admitted and not satisfied, in the way its step asks for,
      and unsealed until the step executes. */
  ghost predicate BegunBy(cfg: Config, o: DispatchOracle, s': Scheduler, g: RunId) {
    && g in s'.runs && g in s'.tasks
    && var run := s'.runs[g];
       && run.profileStepIndex < |cfg.Steps(run.scope)| && !run.executionSealed
       && (if cfg.Steps(run.scope)[run.profileStepIndex].isInline then s'.tasks[g] == InlineBuild
           else cfg.hasPool && s'.tasks[g] == PoolFlush)
       && exists n {:trigger o.admit(run.scope, n)} :: o.admit(run.scope, n) && !o.satisfied(run.scope, n)
  }

  ghost predicate GoesOn(s: Scheduler, s': Scheduler, g: RunId) {
    s.Running(g) && s'.Running(g) && s'.runs[g] == s.runs[g]
        && (g in s.tasks ==> g in s'.tasks && s'.tasks[g] == s.tasks[g])
  }

  ghost predicate BeginsWell(cfg: Config, o: DispatchOracle, s: Scheduler, s': Scheduler) {
    forall g {:trigger s'.Running(g)} {:trigger s.Running(g)} ::
      (s.Running(g) ==> GoesOn(s, s', g)) && (s'.Running(g) && !s.Running(g) ==> BegunBy(cfg, o, s', g))
  }

  lemma BeginsWellTransitive(cfg: Config, o: DispatchOracle, s: Scheduler, s1: Scheduler, s2: Scheduler)
    requires BeginsWell(cfg, o, s, s1) && BeginsWell(cfg, o, s1, s2)
    ensures BeginsWell(cfg, o, s, s2)
  {
    forall g ensures (s.Running(g) ==> GoesOn(s, s2, g))
        && (s2.Running(g) && !s.Running(g) ==> BegunBy(cfg, o, s2, g)) {
      if s1.Running(g) { assert GoesOn(s1, s2, g); }
    }
  }

  lemma {:induction false} PickBeginsNone(cfg: Config, o: DispatchOracle, s: Scheduler, round: nat, budget: nat)
    ensures BeginsWell(cfg, o, s, Pick(s, o.admit, round, budget).0)
    ensures var x := Pick(s, o.admit, round, budget).1; x.Some? ==> o.admit(x.value, round)
    decreases budget
  {
    if budget != 0 && s.readyQueue != [] {
      var x := s.readyQueue[0];
      var tail := TakeHead(s);
      var next := if !s.IsReady(x) then tail else if !s.DepsComplete(s.Node(x)) then DemoteHead(s) else RotateHead(s);
      assert BeginsWell(cfg, o, s, next) && BeginsWell(cfg, o, s, tail);
      if s.IsReady(x) { PickStep(s, o.admit, round, budget); }
      assert !s.IsReady(x) ==> Pick(s, o.admit, round, budget) == Pick(tail, o.admit, round, budget - 1);
      hide Pick, BeginsWell, DemoteHead, RotateHead, TakeHead;
      if !s.IsReady(x) || !s.DepsComplete(s.Node(x)) || !o.admit(x, round) {
        PickBeginsNone(cfg, o, next, round, budget - 1);
        BeginsWellTransitive(cfg, o, s, next, Pick(next, o.admit, round, budget - 1).0);
      }
    }
  }

  lemma BeginBegins(cfg: Config, o: DispatchOracle, s: Scheduler, x: ComputeScope, round: nat)
    requires s.IsReady(x) && s.Node(x).scope == x && o.admit(x, round) && !o.satisfied(x, round)
    requires s.Node(x).profileStepIndex < |cfg.Steps(x)|
    requires !cfg.Steps(x)[s.Node(x).profileStepIndex].isInline ==> cfg.hasPool
    ensures var s' := Begin(s, s.nodes[x],
                if cfg.Steps(x)[s.Node(x).profileStepIndex].isInline then InlineBuild else PoolFlush);
            BeginsWell(cfg, o, s, s') && BeginsWell(cfg, o, s, s'.(faulted := true))
  {
    var task := if cfg.Steps(x)[s.Node(x).profileStepIndex].isInline then InlineBuild else PoolFlush;
    var s', h := Begin(s, s.nodes[x], task), s.nodes[x];
    assert BegunBy(cfg, o, s', h) && BegunBy(cfg, o, s'.(faulted := true), h);
    hide BegunBy;
  }

  lemma NothingBegun(cfg: Config, o: DispatchOracle, s: Scheduler, x: ComputeScope, hydrated: Option<Wire>)
    requires s.IsReady(x)
    ensures BeginsWell(cfg, o, s, s) && BeginsWell(cfg, o, s, s.(faulted := true))
            && BeginsWell(cfg, o, s, Enqueue(s, x))
    ensures BeginsWell(cfg, o, s, ShortCircuit(s, s.nodes[x], hydrated))
  {
    hide Released, Without, BegunBy;
  }

  /** Whatever a pass begins was admitted, not satisfied, and begun in the way its step asks
      for; what was running is left alone. */
  lemma {:induction false} DispatchBeginsWell(cfg: Config, s: Scheduler, o: DispatchOracle, round: nat)
    requires Keyed(s)
    ensures BeginsWell(cfg, o, s, Dispatch(cfg, s, o, round))
    decreases |s.readyQueue|
  {
    if s.readyQueue != [] && !s.faulted {
      var (s1, pick) := Pick(s, o.admit, round, |s.readyQueue|);
      PickBeginsNone(cfg, o, s, round, |s.readyQueue|);
      PickCompletesNothing(s, o.admit, round, |s.readyQueue|);
      if pick.Some? {
        hide BeginsWell, Pick, Dispatch;
        var x := pick.value;
        var g := s1.nodes[x];
        var done, begun := ShortCircuit(s1, g, o.hydrated(x, round)), Begin(s1, g, InlineBuild);
        assert |done.readyQueue| <= |s1.readyQueue| && |begun.readyQueue| == |s1.readyQueue|;
        ChosenCompletesOne(s1, x, o.hydrated(x, round), x);
        DispatchStep(cfg, s, o, round, s1, x);
        NothingBegun(cfg, o, s1, x, o.hydrated(x, round));
        hide ShortCircuit, Begin, Enqueue, Keyed;
        if |cfg.Steps(x)| <= s1.runs[g].profileStepIndex {
        } else if o.satisfied(x, round) {
          DispatchBeginsWell(cfg, done, o, round + 1);
          BeginsWellTransitive(cfg, o, s1, done, Dispatch(cfg, done, o, round + 1));
        } else if cfg.Steps(x)[s1.runs[g].profileStepIndex].isInline {
          BeginBegins(cfg, o, s1, x, round);
          DispatchBeginsWell(cfg, begun, o, round + 1);
          BeginsWellTransitive(cfg, o, s1, begun, Dispatch(cfg, begun, o, round + 1));
        } else if cfg.hasPool {
          BeginBegins(cfg, o, s1, x, round);
        }
        BeginsWellTransitive(cfg, o, s, s1, Dispatch(cfg, s, o, round));
      }
    }
  }

  /** The run was begun in the pass with a step for the pool. */
  ghost predicate PoolBegun(s: Scheduler, s': Scheduler, g: RunId) {
    s'.Running(g) && !s.Running(g) && g in s'.tasks && s'.tasks[g] == PoolFlush
  }

  ghost predicate OnePool(s: Scheduler, s': Scheduler) {
    forall g, h {:trigger PoolBegun(s, s', g), PoolBegun(s, s', h)} :: PoolBegun(s, s', g) && PoolBegun(s, s', h) ==>
        g == h
  }

  ghost predicate NoPool(s: Scheduler, s': Scheduler) {
    forall g {:trigger s'.Running(g)} :: s'.Running(g) && !s.Running(g) ==> g in s'.tasks && s'.tasks[g] != PoolFlush
  }

  lemma OnePoolLater(cfg: Config, o: DispatchOracle, s: Scheduler, s1: Scheduler, s': Scheduler)
    requires NoPool(s, s1) && BeginsWell(cfg, o, s1, s') && OnePool(s1, s')
    ensures OnePool(s, s')
  {
    forall g ensures PoolBegun(s, s', g) ==> PoolBegun(s1, s', g) {
      if s1.Running(g) { assert GoesOn(s1, s', g); }
    }
  }

  lemma PoolOfStep(s: Scheduler, x: ComputeScope, hydrated: Option<Wire>)
    requires s.IsReady(x)
    ensures NoPool(s, Begin(s, s.nodes[x], InlineBuild))
            && NoPool(s, Begin(s, s.nodes[x], InlineBuild).(faulted := true))
    ensures NoPool(s, ShortCircuit(s, s.nodes[x], hydrated)) && NoPool(s, Enqueue(s, x))
            && NoPool(s, s.(faulted := true))
    ensures OnePool(s, Begin(s, s.nodes[x], PoolFlush)) && OnePool(s, Begin(s, s.nodes[x], PoolFlush).(faulted := true))
  {
    hide Released, Without;
  }

  lemma NoPoolIsOne(s: Scheduler, s': Scheduler)
    requires NoPool(s, s')
    ensures OnePool(s, s')
  {}

  lemma {:induction false} PickBeginsNoPool(s: Scheduler, admit: (ComputeScope, nat) -> bool, round: nat, budget: nat)
    ensures forall g :: Pick(s, admit, round, budget).0.Running(g) ==> s.Running(g)
    decreases budget
  {
    if budget != 0 && s.readyQueue != [] {
      var x := s.readyQueue[0];
      if !s.IsReady(x) {
        PickBeginsNoPool(TakeHead(s), admit, round, budget - 1);
      } else {
        PickStep(s, admit, round, budget);
        if !s.DepsComplete(s.Node(x)) {
          PickBeginsNoPool(DemoteHead(s), admit, round, budget - 1);
        } else if !admit(x, round) {
          PickBeginsNoPool(RotateHead(s), admit, round, budget - 1);
        }
      }
    }
  }

  /** A pass begins at most one step for the pool. */
  lemma {:induction false} OnePoolStep(cfg: Config, s: Scheduler, o: DispatchOracle, round: nat)
    requires Keyed(s)
    ensures OnePool(s, Dispatch(cfg, s, o, round))
    decreases |s.readyQueue|, 0
  {
    if s.readyQueue != [] && !s.faulted {
      var (s1, pick) := Pick(s, o.admit, round, |s.readyQueue|);
      var s' := Dispatch(cfg, s, o, round);
      PickBeginsNone(cfg, o, s, round, |s.readyQueue|);
      PickBeginsNoPool(s, o.admit, round, |s.readyQueue|);
      assert NoPool(s, s1);
      PickCompletesNothing(s, o.admit, round, |s.readyQueue|);
      NoPoolIsOne(s, s1);
      if pick.Some? {
        hide BeginsWell, Pick, Dispatch, NoPool, OnePool;
        var x := pick.value;
        var g := s1.nodes[x];
        var done, begun := ShortCircuit(s1, g, o.hydrated(x, round)), Begin(s1, g, InlineBuild);
        assert |done.readyQueue| <= |s1.readyQueue| && |begun.readyQueue| == |s1.readyQueue|;
        ChosenCompletesOne(s1, x, o.hydrated(x, round), x);
        DispatchStep(cfg, s, o, round, s1, x);
        PoolOfStep(s1, x, o.hydrated(x, round));
        NothingBegun(cfg, o, s1, x, o.hydrated(x, round));
        hide ShortCircuit, Begin, Enqueue, Keyed;
        if |cfg.Steps(x)| <= s1.runs[g].profileStepIndex {
          NoPoolIsOne(s1, s');
        } else if o.satisfied(x, round) {
          PoolLater(cfg, o, s1, done, round + 1);
        } else if cfg.Steps(x)[s1.runs[g].profileStepIndex].isInline {
          BeginBegins(cfg, o, s1, x, round);
          PoolLater(cfg, o, s1, begun, round + 1);
          if s' != Dispatch(cfg, begun, o, round + 1) { NoPoolIsOne(s1, s'); }
        } else if cfg.hasPool {
          BeginBegins(cfg, o, s1, x, round);
        } else {
          NoPoolIsOne(s1, s');
        }
        OnePoolLater(cfg, o, s, s1, s');
      }
    }
  }

  /** The rest of a pass after a choice that was not for the pool. */
  lemma {:induction false} PoolLater(cfg: Config, o: DispatchOracle, s: Scheduler, s1: Scheduler, round: nat)
    requires Keyed(s1) && BeginsWell(cfg, o, s, s1) && NoPool(s, s1)
    ensures BeginsWell(cfg, o, s, Dispatch(cfg, s1, o, round)) && OnePool(s, Dispatch(cfg, s1, o, round))
    decreases |s1.readyQueue|, 1
  {
    var s' := Dispatch(cfg, s1, o, round);
    DispatchBeginsWell(cfg, s1, o, round);
    OnePoolStep(cfg, s1, o, round);
    hide BeginsWell, OnePool, NoPool, Dispatch;
    BeginsWellTransitive(cfg, o, s, s1, s');
    OnePoolLater(cfg, o, s, s1, s');
  }
}
