/** The worker pool's shared queue: which item a worker takes next, and when an item's turn comes. */
module WorkQueue {
  import opened Prelude
  import Scheduler

  datatype Item = Item(orchestratorId: int, scope: Scheduler.ComputeScope, stepKind: string,
                       band: Scheduler.PriorityBand, stepIndex: nat)
  {
    predicate Initial() { stepIndex == 0 }
  }

  /** The dequeue predicate; the source evaluates it for every queued item. */
  type Eligible = Item -> bool

  // --- the discipline -----------------------------------------------------------------------

  /** A new arrival of this kind would be served before one already waiting. */
  predicate Outranks(a: Item, b: Item) {
    a.band.Rank() < b.band.Rank() || (a.band == b.band && a.Initial() && !b.Initial())
  }

  /** Better bands first, within a band initial steps before continuations, otherwise first come
      first served. */
  predicate Before(q: seq<Item>, i: nat, j: nat)
    requires i < |q| && j < |q|
  {
    Outranks(q[i], q[j]) || (!Outranks(q[j], q[i]) && i < j)
  }

  ghost predicate IsNext(q: seq<Item>, eligible: Eligible, k: nat) {
    && k < |q| && eligible(q[k])
    && forall j: nat {:trigger q[j]} :: j < |q| && eligible(q[j]) && j != k ==> Before(q, k, j)
  }

  /** The order of the bands, by name: stream-attached, interactive, background. */
  predicate BetterBand(a: Scheduler.PriorityBand, b: Scheduler.PriorityBand) {
    match a
    case StreamAttached => !b.StreamAttached?
    case InteractiveEnsure => b.Background?
    case Background => false
  }

  /** Among the eligible items this one has no better band beside it, within its band no first
      step if it is a continuation itself, and nothing like it earlier in the queue. */
  ghost predicate TakenByBand(q: seq<Item>, eligible: Eligible, k: nat) {
    && k < |q| && eligible(q[k])
    && forall j: nat {:trigger q[j]} :: j < |q| && eligible(q[j]) ==>
         && !BetterBand(q[j].band, q[k].band)
         && (q[j].band == q[k].band && j != k ==> q[k].stepIndex == 0 || q[j].stepIndex > 0)
         && (q[j].band == q[k].band && j < k ==> q[k].stepIndex == 0 && q[j].stepIndex > 0)
  }

  /** The discipline in terms of the three bands. */
  lemma NextByBand(q: seq<Item>, eligible: Eligible, k: nat)
    ensures IsNext(q, eligible, k) <==> TakenByBand(q, eligible, k)
  {
    RankIsBand();
    if TakenByBand(q, eligible, k) {
      forall j: nat | j < |q| && eligible(q[j]) && j != k ensures Before(q, k, j) { assert q[j] == q[j]; }
    }
    if IsNext(q, eligible, k) {
      forall j: nat | j < |q| && eligible(q[j]) && j != k ensures !Before(q, j, k) { assert Before(q, k, j); }
    }
  }

  lemma RankIsBand()
    ensures forall a: Scheduler.PriorityBand, b: Scheduler.PriorityBand {:trigger a.Rank(), b.Rank()} ::
              (a.Rank() < b.Rank() <==> BetterBand(a, b)) && (a.Rank() == b.Rank() <==> a == b)
  {}

  /** Of an item taken while others are queued: its band, against those of the eligible ones. */
  ghost predicate BandIsDue(q: seq<Item>, eligible: Eligible, band: Scheduler.PriorityBand) {
    && ((exists y :: y in q && eligible(y) && y.band.StreamAttached?) ==> band.StreamAttached?)
    && (band.Background? ==> forall y :: y in q && eligible(y) ==> y.band.Background?)
    && (exists y :: y in q && eligible(y) && y.band == band)
  }

  lemma NextBandIsDue(q: seq<Item>, eligible: Eligible, k: nat)
    requires IsNext(q, eligible, k)
    ensures BandIsDue(q, eligible, q[k].band)
  {
    NextByBand(q, eligible, k);
    forall y | y in q && eligible(y) ensures !BetterBand(y.band, q[k].band) {
      var j: nat :| j < |q| && q[j] == y;
    }
    assert q[k] in q;
  }

  function Removed(q: seq<Item>, k: nat): seq<Item>
    requires k < |q|
  {
    q[..k] + q[k + 1..]
  }

  lemma BeforeIsStrict(q: seq<Item>, i: nat, j: nat)
    requires i < |q| && j < |q| && i != j
    ensures Before(q, i, j) <==> !Before(q, j, i)
  {}

  lemma NextIsUnique(q: seq<Item>, eligible: Eligible, j: nat, k: nat)
    requires IsNext(q, eligible, j) && IsNext(q, eligible, k)
    ensures j == k
  {
    if j != k { BeforeIsStrict(q, j, k); }
  }

  class WorkerQueue {
    var items: seq<Item>
    var dequeues: nat

    constructor ()
      ensures items == [] && dequeues == 0
    {
      items, dequeues := [], 0;
    }

    method Submit(item: Item)
      modifies this`items
      ensures items == old(items) + [item]
    {
      items := items + [item];
    }

    /** Drop what an orchestrator that unregisters still has queued. */
    method Unregister(orchestratorId: int)
      modifies this`items
      ensures items == KeptFor(old(items), orchestratorId)
    {
      var kept: seq<Item> := [];
      var i := 0;
      while i < |items|
        invariant 0 <= i <= |items| && items == old(items) && kept == KeptFor(items[..i], orchestratorId)
      {
        assert items[..i + 1][..i] == items[..i];
        if items[i].orchestratorId != orchestratorId { kept := kept + [items[i]]; }
        i := i + 1;
      }
      assert items[..|items|] == items;
      items := kept;
    }

    method PopAt(index: nat) returns (item: Item)
      requires index < |items|
      modifies this`items
      ensures item == old(items)[index] && items == Removed(old(items), index)
    {
      item := items[index];
      items := items[..index] + items[index + 1..];
    }

    /** Take the next eligible item, if there is one; the rest keep their order. */
    method DequeueNext(eligible: Eligible) returns (item: Option<Item>)
      modifies this`items
      ensures item.None? <==> forall x :: x in old(items) ==> !eligible(x)
      ensures item.None? ==> items == old(items)
      ensures item.Some? ==> exists k: nat {:trigger Removed(old(items), k)} ::
                IsNext(old(items), eligible, k) && item == Some(old(items)[k]) && items == Removed(old(items), k)
      ensures item.Some? ==> BandIsDue(old(items), eligible, item.value.band)
    {
      var best := BestRank(items, eligible);
      if best.None? { return None; }
      var first: Option<nat> := None;
      var index := 0;
      while index < |items|
        invariant 0 <= index <= |items| && items == old(items)
        invariant first.None? ==> forall j: nat :: j < index ==> !IsCandidate(items, eligible, best.value, j)
        invariant first.Some? ==> first.value < index && IsCandidate(items, eligible, best.value, first.value)
        invariant first.Some? ==> forall j: nat :: j < first.value ==> !IsCandidate(items, eligible, best.value, j)
        invariant forall j: nat :: j < index && IsCandidate(items, eligible, best.value, j) ==> !items[j].Initial()
      {
        if eligible(items[index]) && items[index].band.Rank() == best.value {
          if items[index].Initial() {
            InitialIsNext(items, eligible, best.value, index);
            NextBandIsDue(items, eligible, index);
            var taken := PopAt(index);
            return Some(taken);
          }
          if first.None? { first := Some(index); }
        }
        index := index + 1;
      }
      ContinuationIsNext(items, eligible, best.value, first);
      NextBandIsDue(items, eligible, first.value);
      var taken := PopAt(first.value);
      return Some(taken);
    }

    method PopRunnable(eligible: Eligible) returns (item: Option<Item>)
      modifies this
      ensures item.None? <==> forall x :: x in old(items) ==> !eligible(x)
      ensures dequeues == old(dequeues) + (if item.Some? then 1 else 0)
      ensures item.None? ==> items == old(items)
      ensures item.Some? ==> exists k: nat {:trigger Removed(old(items), k)} ::
                IsNext(old(items), eligible, k) && item == Some(old(items)[k]) && items == Removed(old(items), k)
      ensures item.Some? ==> BandIsDue(old(items), eligible, item.value.band)
    {
      item := DequeueNext(eligible);
      if item.Some? { dequeues := dequeues + 1; }
    }
  }

  function KeptFor(q: seq<Item>, orchestratorId: int): seq<Item> {
    if q == [] then []
    else KeptFor(q[..|q| - 1], orchestratorId) + (if q[|q| - 1].orchestratorId != orchestratorId then [q[|q| - 1]]
        else [])
  }

  predicate IsCandidate(q: seq<Item>, eligible: Eligible, rank: nat, j: nat) {
    j < |q| && eligible(q[j]) && q[j].band.Rank() == rank
  }

  /** The best band among eligible items. */
  ghost predicate IsBestRank(q: seq<Item>, eligible: Eligible, rank: nat) {
    && (exists x :: x in q && eligible(x) && x.band.Rank() == rank)
    && (forall x :: x in q && eligible(x) ==> rank <= x.band.Rank())
  }

  method BestRank(q: seq<Item>, eligible: Eligible) returns (best: Option<nat>)
    ensures best.None? <==> forall x :: x in q ==> !eligible(x)
    ensures best.Some? ==> IsBestRank(q, eligible, best.value)
    ensures best.Some? ==> exists band: Scheduler.PriorityBand ::
            band.Rank() == best.value && BandIsDue(q, eligible, band)
  {
    best := None;
    var i := 0;
    while i < |q|
      invariant 0 <= i <= |q|
      invariant best.None? <==> forall x :: x in q[..i] ==> !eligible(x)
      invariant best.Some? ==> IsBestRank(q[..i], eligible, best.value)
    {
      assert q[..i + 1] == q[..i] + [q[i]];
      if eligible(q[i]) && (best.None? || q[i].band.Rank() < best.value) { best := Some(q[i].band.Rank()); }
      i := i + 1;
    }
    assert q[..|q|] == q;
    if best.Some? { BestRankIsDue(q, eligible, best.value); }
  }

  lemma BestRankIsDue(q: seq<Item>, eligible: Eligible, rank: nat)
    requires IsBestRank(q, eligible, rank)
    ensures exists band: Scheduler.PriorityBand :: band.Rank() == rank && BandIsDue(q, eligible, band)
  {
    RankIsBand();
    var x :| x in q && eligible(x) && x.band.Rank() == rank;
    forall y | y in q && eligible(y) ensures !BetterBand(y.band, x.band) { assert x.band.Rank() <= y.band.Rank(); }
    assert BandIsDue(q, eligible, x.band);
  }

  lemma InitialIsNext(q: seq<Item>, eligible: Eligible, best: nat, k: nat)
    requires IsBestRank(q, eligible, best) && IsCandidate(q, eligible, best, k) && q[k].Initial()
    requires forall j: nat :: j < k && IsCandidate(q, eligible, best, j) ==> !q[j].Initial()
    ensures IsNext(q, eligible, k)
  {
    forall j: nat | j < |q| && eligible(q[j]) && j != k ensures Before(q, k, j) {
      assert q[j] in q;
      if j < k { assert IsCandidate(q, eligible, best, j) ==> !q[j].Initial(); }
    }
  }

  lemma ContinuationIsNext(q: seq<Item>, eligible: Eligible, best: nat, first: Option<nat>)
    requires IsBestRank(q, eligible, best)
    requires forall j: nat :: IsCandidate(q, eligible, best, j) ==> !q[j].Initial()
    requires first.None? ==> forall j: nat :: !IsCandidate(q, eligible, best, j)
    requires first.Some? ==> IsCandidate(q, eligible, best, first.value) && forall j: nat :: j < first.value ==>
             !IsCandidate(q, eligible, best, j)
    ensures first.Some? && IsNext(q, eligible, first.value)
  {
    var x :| x in q && eligible(x) && x.band.Rank() == best;
    var i: nat :| i < |q| && q[i] == x;
    assert IsCandidate(q, eligible, best, i);
    var k := first.value;
    forall j: nat | j < |q| && eligible(q[j]) && j != k ensures Before(q, k, j) {
      assert q[j] in q;
      if q[j].band.Rank() == best { assert IsCandidate(q, eligible, best, j); }
    }
  }

  // --- whose turn it is ---------------------------------------------------------------------

  /** How many eligible items among the first `n` are to be served before item `k`. */
  function AheadBelow(q: seq<Item>, eligible: Eligible, k: nat, n: nat): nat
    requires k < |q| && n <= |q|
  {
    if n == 0 then 0
    else AheadBelow(q, eligible, k, n - 1) + (if eligible(q[n - 1]) && n - 1 != k && Before(q, n - 1, k) then 1 else 0)
  }

  function Ahead(q: seq<Item>, eligible: Eligible, k: nat): nat
    requires k < |q|
  {
    AheadBelow(q, eligible, k, |q|)
  }

  /** An eligible item is next exactly when nobody is ahead of it. */
  lemma NextIffNobodyAhead(q: seq<Item>, eligible: Eligible, k: nat)
    requires k < |q| && eligible(q[k])
    ensures IsNext(q, eligible, k) <==> Ahead(q, eligible, k) == 0
  {
    NobodyAheadBelow(q, eligible, k, |q|);
    if Ahead(q, eligible, k) == 0 {
      forall j: nat | j < |q| && eligible(q[j]) && j != k ensures Before(q, k, j) { assert !Before(q, j, k); }
    }
    if IsNext(q, eligible, k) {
      forall j: nat | j < |q| && eligible(q[j]) && j != k ensures !Before(q, j, k) { assert Before(q, k, j); }
    }
  }

  lemma {:induction false} NobodyAheadBelow(q: seq<Item>, eligible: Eligible, k: nat, n: nat)
    requires k < |q| && n <= |q|
    ensures AheadBelow(q, eligible, k, n) == 0 <==> forall j: nat {:trigger q[j]} ::
            j < n && eligible(q[j]) && j != k ==> !Before(q, j, k)
  {
    if n > 0 { NobodyAheadBelow(q, eligible, k, n - 1); }
  }

  /** Where item `k` stands once item `served` is gone. */
  function Shifted(k: nat, served: nat): nat
    requires k != served
  {
    if served < k then k - 1 else k
  }

  /** Each service of another item brings an item exactly one place nearer. */
  lemma ServiceAdvances(q: seq<Item>, eligible: Eligible, k: nat, served: nat)
    requires k < |q| && eligible(q[k]) && IsNext(q, eligible, served) && served != k
    ensures Removed(q, served)[Shifted(k, served)] == q[k]
    ensures Ahead(Removed(q, served), eligible, Shifted(k, served)) == Ahead(q, eligible, k) - 1
  {
    assert Before(q, served, k);
    RemovedBelow(q, eligible, k, served, |q|);
  }

  lemma {:induction false} RemovedBelow(q: seq<Item>, eligible: Eligible, k: nat, served: nat, n: nat)
    requires k < |q| && served < |q| && served != k && eligible(q[served]) && Before(q, served, k) && n <= |q|
    ensures var gone := if n > served then 1 else 0;
            AheadBelow(q, eligible, k, n) - gone
                == AheadBelow(Removed(q, served), eligible, Shifted(k, served), n - gone)
  {
    if n > 0 {
      RemovedBelow(q, eligible, k, served, n - 1);
      var r, k' := Removed(q, served), Shifted(k, served);
      if n - 1 < served {
        assert r[n - 1] == q[n - 1];
      } else if n - 1 > served {
        assert r[n - 2] == q[n - 1];
        assert Before(r, n - 2, k') <==> Before(q, n - 1, k);
      }
    }
  }

  /** An arrival gets ahead of a waiting item exactly when it outranks it. */
  lemma ArrivalAhead(q: seq<Item>, eligible: Eligible, k: nat, x: Item)
    requires k < |q|
    ensures Ahead(q + [x], eligible, k) == Ahead(q, eligible, k) + (if eligible(x) && Outranks(x, q[k]) then 1 else 0)
  {
    SamePrefix(q, eligible, k, x, |q|);
  }

  lemma {:induction false} SamePrefix(q: seq<Item>, eligible: Eligible, k: nat, x: Item, n: nat)
    requires k < |q| && n <= |q|
    ensures AheadBelow(q + [x], eligible, k, n) == AheadBelow(q, eligible, k, n)
  {
    if n > 0 {
      SamePrefix(q, eligible, k, x, n - 1);
      assert Before(q + [x], n - 1, k) <==> Before(q, n - 1, k);
    }
  }

  // --- whole runs ---------------------------------------------------------------------------

  datatype Op = Arrive(item: Item) | Serve

  /** How a queue develops under a fixed predicate. */
  ghost predicate Steps(q: seq<Item>, eligible: Eligible, op: Op, q': seq<Item>) {
    match op
    case Arrive(x) => q' == q + [x]
    case Serve =>
      if forall j: nat :: j < |q| ==> !eligible(q[j]) then q' == q
      else exists n: nat {:trigger Removed(q, n)} :: IsNext(q, eligible, n) && q' == Removed(q, n)
  }

  ghost predicate IsHistory(queues: seq<seq<Item>>, eligible: Eligible, ops: seq<Op>) {
    && |queues| == |ops| + 1
    && forall i: nat {:trigger ops[i]} :: i < |ops| ==> Steps(queues[i], eligible, ops[i], queues[i + 1])
  }

  /** How many services the run has seen. */
  function Services(ops: seq<Op>): nat {
    if ops == [] then 0 else Services(ops[1..]) + (if ops[0].Serve? then 1 else 0)
  }

  function Overtakers(ops: seq<Op>, eligible: Eligible, item: Item): nat {
    if ops == [] then 0
    else Overtakers(ops[1..], eligible, item) + (if ops[0].Arrive? && eligible(ops[0].item) && Outranks(ops[0].item,
        item) then 1 else 0)
  }

  /** The item's turn comes exactly when those ahead of it and those that overtake it have been
      served: it is still queued while the services so far do not exceed them, and the service
      that exceeds them takes it. */
  lemma {:induction false} TurnComes(queues: seq<seq<Item>>, eligible: Eligible, ops: seq<Op>, k: nat)
          returns (at: Option<nat>)
    requires IsHistory(queues, eligible, ops) && k < |queues[0]| && eligible(queues[0][k])
    ensures at.Some? ==> Waits(queues, eligible, ops, k, at.value)
    ensures at.None? ==> TakenInTurn(queues, eligible, ops, k)
    decreases |ops|
  {
    if ops == [] {
      return Some(k);
    }
    var q := queues[0];
    assert Steps(q, eligible, ops[0], queues[1]);
    TailHistory(queues, eligible, ops);
    match ops[0] {
      case Arrive(x) =>
        ArrivalAhead(q, eligible, k, x);
        at := TurnComes(queues[1..], eligible, ops[1..], k);
        if at.None? { TakenLater(queues, eligible, ops, k, k); }
      case Serve =>
        var n: nat :| IsNext(q, eligible, n) && queues[1] == Removed(q, n);
        NextIffNobodyAhead(q, eligible, k);
        if n == k {
          TakenNow(queues, eligible, ops, k);
          return None;
        }
        if IsNext(q, eligible, k) { NextIsUnique(q, eligible, n, k); }
        ServiceAdvances(q, eligible, k, n);
        at := TurnComes(queues[1..], eligible, ops[1..], Shifted(k, n));
        if at.None? { TakenLater(queues, eligible, ops, k, Shifted(k, n)); }
    }
  }

  lemma TailHistory(queues: seq<seq<Item>>, eligible: Eligible, ops: seq<Op>)
    requires IsHistory(queues, eligible, ops) && ops != []
    ensures IsHistory(queues[1..], eligible, ops[1..])
  {
    forall i: nat | i < |ops[1..]| ensures Steps(queues[1..][i], eligible, ops[1..][i], queues[1..][i + 1]) {
      assert Steps(queues[i + 1], eligible, ops[i + 1], queues[i + 1 + 1]);
    }
  }

  /** The item is still queued, now at `at`, with the balance of arrivals and services ahead. */
  ghost predicate Waits(queues: seq<seq<Item>>, eligible: Eligible, ops: seq<Op>, k: nat, at: nat)
    requires |queues| == |ops| + 1 && k < |queues[0]|
  {
    var end, item := queues[|ops|], queues[0][k];
    && at < |end| && end[at] == item
    && Ahead(end, eligible, at) == Ahead(queues[0], eligible, k) + Overtakers(ops, eligible, item) - Services(ops)
  }

  /** Some service in the run takes the item, and up to it exactly as many others were served as
      were ahead of it or overtook it. */
  ghost predicate TakenInTurn(queues: seq<seq<Item>>, eligible: Eligible, ops: seq<Op>, k: nat)
    requires |queues| == |ops| + 1 && k < |queues[0]|
  {
    exists i: nat, n: nat {:trigger TakenAt(queues, eligible, ops, k, i, n)} :: TakenAt(queues, eligible, ops, k, i, n)
  }

  ghost predicate TakenAt(queues: seq<seq<Item>>, eligible: Eligible, ops: seq<Op>, k: nat, i: nat, n: nat)
    requires |queues| == |ops| + 1 && k < |queues[0]|
  {
    && i < |ops| && ops[i].Serve? && IsNext(queues[i], eligible, n) && queues[i][n] == queues[0][k]
         && queues[i + 1] == Removed(queues[i], n)
    && Services(ops[..i]) == Ahead(queues[0], eligible, k) + Overtakers(ops[..i], eligible, queues[0][k])
  }

  lemma TakenNow(queues: seq<seq<Item>>, eligible: Eligible, ops: seq<Op>, k: nat)
    requires IsHistory(queues, eligible, ops) && k < |queues[0]| && eligible(queues[0][k])
    requires ops != [] && ops[0].Serve? && IsNext(queues[0], eligible, k) && queues[1] == Removed(queues[0], k)
    ensures TakenInTurn(queues, eligible, ops, k)
  {
    NextIffNobodyAhead(queues[0], eligible, k);
    assert ops[..0] == [];
    assert TakenAt(queues, eligible, ops, k, 0, k);
  }

  lemma TakenLater(queues: seq<seq<Item>>, eligible: Eligible, ops: seq<Op>, k: nat, k1: nat)
    requires |queues| == |ops| + 1 && ops != [] && k < |queues[0]| && k1 < |queues[1]| && queues[1][k1] == queues[0][k]
    requires TakenInTurn(queues[1..], eligible, ops[1..], k1)
    requires Ahead(queues[1], eligible, k1) ==
               Ahead(queues[0], eligible, k) + Overtakers(ops[..1], eligible, queues[0][k]) - Services(ops[..1])
    ensures TakenInTurn(queues, eligible, ops, k)
  {
    var i: nat, n: nat :| TakenAt(queues[1..], eligible, ops[1..], k1, i, n);
    assert ops[..i + 1][1..] == ops[1..][..i];
    assert ops[..1][1..] == [];
    assert TakenAt(queues, eligible, ops, k, i + 1, n);
  }

  /** With no overtaking arrival, an item with `p` eligible items ahead is served by exactly the
      service after `p` others. */
  lemma ServedAfterThoseAhead(queues: seq<seq<Item>>, eligible: Eligible, ops: seq<Op>, k: nat)
    requires IsHistory(queues, eligible, ops) && k < |queues[0]| && eligible(queues[0][k])
    requires forall x :: Arrive(x) in ops ==> !Outranks(x, queues[0][k])
    requires Services(ops) > Ahead(queues[0], eligible, k)
    ensures exists i: nat, n: nat {:trigger TakenAt(queues, eligible, ops, k, i, n)} ::
              TakenAt(queues, eligible, ops, k, i, n) && Services(ops[..i]) == Ahead(queues[0], eligible, k)
  {
    var at := TurnComes(queues, eligible, ops, k);
    NoOvertakers(ops, eligible, queues[0][k]);
    assert at.None?;
    var i: nat, n: nat :| TakenAt(queues, eligible, ops, k, i, n);
    NoOvertakers(ops[..i], eligible, queues[0][k]);
  }

  lemma {:induction false} NoOvertakers(ops: seq<Op>, eligible: Eligible, item: Item)
    requires forall x :: Arrive(x) in ops ==> !Outranks(x, item)
    ensures Overtakers(ops, eligible, item) == 0
  {
    if ops != [] {
      assert ops == [ops[0]] + ops[1..];
      NoOvertakers(ops[1..], eligible, item);
    }
  }

  // --- round robin --------------------------------------------------------------------------

  /** Continuations of one band, all eligible, now and when they come back. */
  ghost predicate OneBandOfContinuations(q: seq<Item>, eligible: Eligible) {
    && (forall x {:trigger eligible(x)} :: x in q ==>
         !x.Initial() && (forall n: nat {:trigger x.(stepIndex := n)} :: eligible(x.(stepIndex := n))))
    && (forall x, y :: x in q && y in q ==> x.band == y.band)
  }

  function Continued(x: Item): Item { x.(stepIndex := x.stepIndex + 1) }

  /** Serve the next item and queue its next step. */
  function Round(q: seq<Item>): (r: seq<Item>)
    requires q != []
    ensures |r| == |q|
  {
    q[1..] + [Continued(q[0])]
  }

  function Rounds(q: seq<Item>, n: nat): (r: seq<Item>)
    requires q != []
    ensures |r| == |q|
    decreases n
  {
    if n == 0 then q else Rounds(Round(q), n - 1)
  }

  function AllContinued(q: seq<Item>): seq<Item> { seq(|q|, i requires 0 <= i < |q| => Continued(q[i])) }

  /** Serving such a queue takes its head, and leaves such a queue behind. */
  lemma HeadIsNext(q: seq<Item>, eligible: Eligible)
    requires OneBandOfContinuations(q, eligible) && q != []
    ensures IsNext(q, eligible, 0) && Round(q) == Removed(q, 0) + [Continued(q[0])]
    ensures OneBandOfContinuations(Round(q), eligible)
  {
    forall j: nat | j < |q| ensures eligible(q[j]) && (j != 0 ==> Before(q, 0, j)) {
      assert q[j] in q && q[0] in q;
      assert q[j].(stepIndex := q[j].stepIndex) == q[j];
    }
    forall x | x in Round(q) ensures !x.Initial() && forall n: nat {:trigger x.(stepIndex := n)} ::
        eligible(x.(stepIndex := n)) {
      if x in q[1..] {
        assert x in q;
      } else {
        forall n: nat ensures eligible(x.(stepIndex := n)) { assert x.(stepIndex := n) == q[0].(stepIndex := n); }
      }
    }
    forall x, y | x in Round(q) && y in Round(q) ensures x.band == y.band {
      assert exists x0, y0 :: x0 in q && y0 in q && x0.band == x.band && y0.band == y.band;
    }
  }

  /** The service at `i` takes item `x`. */
  ghost predicate Takes(queues: seq<seq<Item>>, eligible: Eligible, i: nat, x: Item) {
    && i + 1 < |queues|
    && exists n: nat {:trigger Removed(queues[i], n)} ::
         IsNext(queues[i], eligible, n) && queues[i][n] == x && queues[i + 1] == Removed(queues[i], n)
  }

  /** Services alternate with the arrival of the next step of what was just served. */
  ghost predicate Alternates(queues: seq<seq<Item>>, eligible: Eligible, ops: seq<Op>) {
    && |queues| == |ops| + 1 && |ops| % 2 == 0
    && forall k: nat {:trigger ops[2 * k]} :: 2 * k < |ops| ==>
         ops[2 * k].Serve? && exists x {:trigger Arrive(Continued(x))} ::
           Takes(queues, eligible, 2 * k, x) && ops[2 * k + 1] == Arrive(Continued(x))
  }

  /** Continuations rotate: in every history in which what is served comes back with its next
      step, each of the waiting continuations has had exactly one turn, in the order they stood
      in, once as many were served as there are; then they stand in that order again, and the
      next turn round is like this one. */
  lemma RoundRobin(queues: seq<seq<Item>>, eligible: Eligible, ops: seq<Op>)
    requires IsHistory(queues, eligible, ops) && Alternates(queues, eligible, ops)
    requires OneBandOfContinuations(queues[0], eligible) && queues[0] != []
    ensures forall k: nat {:trigger queues[0][k]} :: k < |queues[0]| && 2 * k < |ops| ==>
              Takes(queues, eligible, 2 * k, queues[0][k])
    ensures var n := |queues[0]|;
            2 * n <= |ops| ==>
                queues[2 * n] == AllContinued(queues[0]) && OneBandOfContinuations(queues[2 * n], eligible)
  {
    var q := queues[0];
    forall k: nat | k < |q| && 2 * k < |ops| ensures Takes(queues, eligible, 2 * k, q[k]) {
      HistoryRotates(queues, eligible, ops, k);
      RoundsRotate(q, k);
      RoundTakesHead(queues, eligible, ops, k);
    }
    if 2 * |q| <= |ops| {
      HistoryRotates(queues, eligible, ops, |q|);
      RoundsRotate(q, |q|);
    }
  }

  /** After `k` rounds the history has rotated `k` times. */
  lemma {:induction false} HistoryRotates(queues: seq<seq<Item>>, eligible: Eligible, ops: seq<Op>, k: nat)
    requires IsHistory(queues, eligible, ops) && Alternates(queues, eligible, ops) && 2 * k <= |ops|
    requires OneBandOfContinuations(queues[0], eligible) && queues[0] != []
    ensures queues[2 * k] == Rounds(queues[0], k) && OneBandOfContinuations(queues[2 * k], eligible)
    decreases k
  {
    if k > 0 {
      var i := 2 * (k - 1);
      HistoryRotates(queues, eligible, ops, k - 1);
      RoundTakesHead(queues, eligible, ops, k - 1);
      HeadIsNext(queues[i], eligible);
      RoundsLast(queues[0], k - 1);
    }
  }

  /** What is taken from such a queue is its head. */
  lemma HeadTaken(queues: seq<seq<Item>>, eligible: Eligible, i: nat, x: Item)
    requires i < |queues| && OneBandOfContinuations(queues[i], eligible) && queues[i] != []
             && Takes(queues, eligible, i, x)
    ensures x == queues[i][0] && queues[i + 1] == Removed(queues[i], 0)
  {
    HeadIsNext(queues[i], eligible);
    var n: nat :| IsNext(queues[i], eligible, n) && queues[i][n] == x && queues[i + 1] == Removed(queues[i], n);
    hide OneBandOfContinuations, Round;
    NextIsUnique(queues[i], eligible, n, 0);
  }

  /** A round of such a history serves the head and queues its next step. */
  lemma RoundTakesHead(queues: seq<seq<Item>>, eligible: Eligible, ops: seq<Op>, k: nat)
    requires IsHistory(queues, eligible, ops) && Alternates(queues, eligible, ops) && 2 * k < |ops|
    requires OneBandOfContinuations(queues[2 * k], eligible) && queues[2 * k] != []
    ensures Takes(queues, eligible, 2 * k, queues[2 * k][0]) && queues[2 * k + 2] == Round(queues[2 * k])
  {
    var i := 2 * k;
    assert ops[2 * k].Serve?;
    var x :| Takes(queues, eligible, 2 * k, x) && ops[2 * k + 1] == Arrive(Continued(x));
    hide Takes, OneBandOfContinuations, Continued;
    HeadTaken(queues, eligible, i, x);
    assert Steps(queues[i + 1], eligible, ops[i + 1], queues[i + 1 + 1]);
    assert queues[i + 2] == queues[i + 1] + [Continued(x)];
    assert Removed(queues[i], 0) == queues[i][1..];
  }

  lemma {:induction false} RoundsRotate(q: seq<Item>, n: nat)
    requires q != [] && n <= |q|
    ensures Rounds(q, n) == q[n..] + AllContinued(q[..n])
    decreases n
  {
    if n > 0 {
      RoundsRotate(q, n - 1);
      RoundsLast(q, n - 1);
      assert q[n - 1..] == [q[n - 1]] + q[n..];
      assert AllContinued(q[..n]) == AllContinued(q[..n - 1]) + [Continued(q[n - 1])];
    }
  }

  lemma {:induction false} RoundsLast(q: seq<Item>, n: nat)
    requires q != []
    ensures Rounds(q, n) != [] && Rounds(q, n + 1) == Round(Rounds(q, n))
    decreases n
  {
    if n > 0 { RoundsLast(Round(q), n - 1); }
  }
}
