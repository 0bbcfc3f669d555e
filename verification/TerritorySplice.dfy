/** Cutting the holes of a territory into its exterior, so that one ring bounds it. */
module TerritorySplice {
  import opened Prelude
  import opened TerritoryRing

  /** A hole has vertices; the source takes the greatest one without asking. */
  type Hole = ring: Ring | ring != [] witness [Point(0.0, 0.0)]

  // --- measuring a ring ---------------------------------------------------------------------

  /** The closed walk round a ring, as far as the edge that starts at vertex `i`. */
  function WalkTo(ring: Ring, i: nat): seq<Point>
    requires i <= |ring|
  {
    if ring == [] then [] else (ring + [ring[0]])[..i + 1]
  }

  lemma WalkOn(ring: Ring, i: nat, q: Point)
    requires i < |ring|
    ensures PathTally(WalkTo(ring, i + 1), q).swept
            == PathTally(WalkTo(ring, i), q).swept + Cross(ring[i], Next(ring, i))
  {
    var walked := WalkTo(ring, i);
    assert WalkTo(ring, i + 1) == walked + [Next(ring, i)] && walked[|walked| - 1] == ring[i];
    hide PathTally, Cross, Crosses, Meets;
    LastEdge(walked, Next(ring, i), q);
  }

  method SignedArea(ring: Ring) returns (area: real)
    ensures area == Area(ring)
  {
    ghost var q := Point(0.0, 0.0);
    assert PathTally(WalkTo(ring, 0), q).swept == 0.0;
    assert RingTally(ring, q) == PathTally(WalkTo(ring, |ring|), q) by {
           assert WalkTo(ring, |ring|) == if ring == [] then [] else ring + [ring[0]]; }
    hide PathTally, WalkTo, Cross;
    area := 0.0;
    var index := 0;
    while index < |ring|
      invariant 0 <= index <= |ring|
      invariant area == PathTally(WalkTo(ring, index), q).swept
    {
      WalkOn(ring, index, q);
      Wraps(index + 1, |ring|);
      var a, b := ring[index], ring[(index + 1) % |ring|];
      area := area + Cross(a, b);
      index := index + 1;
    }
    return area / 2.0;
  }

  method EvenOddContains(ring: Ring, x: real, y: real) returns (inside: bool)
    ensures inside == Inside(ring, Point(x, y))
  {
    hide Crosses, Meets, CrossX;
    inside := false;
    if ring == [] { return; }
    ghost var q := Point(x, y);
    ghost var last := ring[|ring| - 1];
    ghost var walked := [last];
    var previous := |ring| - 1;
    var index := 0;
    assert PathTally(walked, q) == NOTHING;
    while index < |ring|
      invariant 0 <= index <= |ring|
      invariant previous == if index == 0 then |ring| - 1 else index - 1
      invariant walked == [last] + ring[..index] && walked[|walked| - 1] == ring[previous]
      invariant inside == PathTally(walked, q).odd
    {
      var a, b := ring[index], ring[previous];
      LastEdge(walked, a, q);
      assert PathTally(walked + [a], q).odd == (inside != EdgeTally(b, a, q).odd);
      CrossesFromEnd(b, a, q);
      if (a.y > y) != (b.y > y) {
        if x < CrossX(a, b, y) { inside := !inside; }
      }
      walked := walked + [a];
      previous := index;
      index := index + 1;
    }
    assert walked == [last] + ring;
    FirstEdge(last, ring, q);
    CloseRing(ring, q);
  }

  /** The source measures each edge from its end. */
  lemma CrossesFromEnd(b: Point, a: Point, q: Point)
    ensures EdgeTally(b, a, q).odd <==> Straddles(a, b, q.y) && q.x < CrossX(a, b, q.y)
  {
    hide Meets, Cross, CrossX;
    if Straddles(a, b, q.y) { CrossXSymmetric(a, b, q.y); }
  }

  /** The vertex after vertex `i`, cyclically. */
  function Next(ring: Ring, i: nat): Point
    requires i < |ring|
  {
    if i + 1 < |ring| then ring[i + 1] else ring[0]
  }

  lemma Wraps(i: nat, n: nat)
    requires n > 0 && i < 2 * n
    ensures i % n == if i < n then i else i - n
  {
    if i >= n { assert i / n == 1; }
  }

  lemma LastEdge(path: seq<Point>, b: Point, q: Point)
    requires path != []
    ensures PathTally(path + [b], q) == PathTally(path, q).Plus(EdgeTally(path[|path| - 1], b, q))
  {
    var n := |path| - 1;
    JoinPaths(path[..n], path[n], [b], q);
    assert path == path[..n] + [path[n]];
    assert [path[n]] + [b] == [path[n], b];
    EdgePath(path[n], b, q);
  }

  // --- repeated vertices --------------------------------------------------------------------

  /** Without vertices equal to their predecessor. */
  function Compress(s: Ring): Ring {
    if |s| <= 1 then s
    else Compress(s[..|s| - 1]) + (if s[|s| - 1] != s[|s| - 2] then [s[|s| - 1]] else [])
  }

  /** Without trailing vertices equal to the first. */
  function Trim(s: Ring): Ring {
    if |s| > 1 && s[0] == s[|s| - 1] then Trim(s[..|s| - 1]) else s
  }

  lemma {:induction false} CompressEnds(s: Ring)
    requires s != []
    ensures Compress(s) != [] && Compress(s)[0] == s[0] && Compress(s)[|Compress(s)| - 1] == s[|s| - 1]
  {
    if |s| > 1 { CompressEnds(s[..|s| - 1]); }
  }

  lemma {:induction false} CompressKeeps(s: Ring, q: Point)
    requires s != []
    ensures PathTally(Compress(s), q) == PathTally(s, q)
  {
    if |s| > 1 {
      var front, last := s[..|s| - 1], s[|s| - 1];
      CompressKeeps(front, q);
      CompressEnds(front);
      var kept := Compress(front);
      assert Compress(s) == if last != front[|front| - 1] then kept + [last] else kept;
      hide EdgeTally, PathTally, Compress;
      assert s == front + [last];
      LastEdge(front, last, q);
      LastEdge(kept, last, q);
      NoEdge(last, q);
    }
  }

  lemma {:induction false} TrimKeeps(s: Ring, q: Point)
    ensures s != [] ==> Trim(s) != []
    ensures RingTally(Trim(s), q) == RingTally(s, q)
  {
    if |s| > 1 && s[0] == s[|s| - 1] {
      var front := s[..|s| - 1];
      TrimKeeps(front, q);
      assert front + [front[0]] == s;
      LastEdge(s, s[0], q);
      NoEdge(s[0], q);
    }
  }

  function DropRepeatsOf(ring: Ring): Ring { Trim(Compress(ring)) }

  /** Dropping repeats never changes what a ring contains or its area. */
  lemma DropRepeatsKeeps(ring: Ring, q: Point)
    ensures RingTally(DropRepeatsOf(ring), q) == RingTally(ring, q)
  {
    if ring != [] {
      CompressKeeps(ring, q);
      CompressEnds(ring);
      CloseRing(ring, q);
      CloseRing(Compress(ring), q);
    }
    TrimKeeps(Compress(ring), q);
  }

  ghost predicate Alternates(s: Ring) {
    forall i :: 0 <= i < |s| - 1 ==> s[i] != s[i + 1]
  }

  lemma {:induction false} CompressAlternates(s: Ring)
    ensures Alternates(Compress(s)) && (s != [] ==> Compress(s) != [] && Compress(s)[|Compress(s)| - 1] == s[|s| - 1])
  {
    if |s| > 1 { CompressAlternates(s[..|s| - 1]); }
  }

  lemma {:induction false} TrimAlternates(s: Ring)
    requires Alternates(s)
    ensures Alternates(Trim(s)) && (|Trim(s)| > 1 ==> Trim(s)[0] != Trim(s)[|Trim(s)| - 1])
  {
    if |s| > 1 && s[0] == s[|s| - 1] { TrimAlternates(s[..|s| - 1]); }
  }

  method DropRepeats(ring: Ring) returns (kept: Ring)
    ensures kept == DropRepeatsOf(ring)
    ensures forall i :: 0 <= i < |kept| && |kept| > 1 ==> kept[i] != Next(kept, i)
  {
    kept := [];
    var i := 0;
    while i < |ring|
      invariant 0 <= i <= |ring|
      invariant kept == Compress(ring[..i])
      invariant i > 0 ==> kept != [] && kept[|kept| - 1] == ring[i - 1]
    {
      assert ring[..i + 1][..i] == ring[..i];
      if kept == [] || ring[i] != kept[|kept| - 1] { kept := kept + [ring[i]]; }
      i := i + 1;
    }
    assert ring[..|ring|] == ring;
    CompressAlternates(ring);
    TrimAlternates(kept);
    while |kept| > 1 && kept[0] == kept[|kept| - 1]
      invariant Trim(kept) == DropRepeatsOf(ring)
    {
      kept := kept[..|kept| - 1];
    }
  }

  // --- one cut ------------------------------------------------------------------------------

  /** Tuple order on vertices. */
  predicate Less(a: Point, b: Point) { a.x < b.x || (a.x == b.x && a.y < b.y) }

  /** The first greatest vertex among the first `n`. */
  function MaxIndexBelow(ring: Ring, n: nat): (k: nat)
    requires 0 < n <= |ring|
    ensures k < n
    ensures forall j :: 0 <= j < n ==> !Less(ring[k], ring[j])
  {
    if n == 1 then 0
    else var k := MaxIndexBelow(ring, n - 1); if Less(ring[k], ring[n - 1]) then n - 1 else k
  }

  /** The rightmost vertex of a hole, from which it is cut. */
  function Anchor(hole: Hole): (v: Point)
    ensures v in hole && forall u :: u in hole ==> !Less(v, u)
  {
    hole[MaxIndexBelow(hole, |hole|)]
  }

  /** The rightward ray from `v` meets edge `i`. */
  predicate Hits(ring: Ring, i: nat, v: Point)
    requires i < |ring|
  {
    Straddles(ring[i], Next(ring, i), v.y) && v.x <= CrossX(ring[i], Next(ring, i), v.y)
  }

  function HitX(ring: Ring, i: nat, v: Point): real
    requires i < |ring| && Hits(ring, i, v)
  {
    CrossX(ring[i], Next(ring, i), v.y)
  }

  /** The first nearest edge the ray meets among the first `n`. */
  function NearestBelow(ring: Ring, v: Point, n: nat): (e: Option<nat>)
    requires n <= |ring|
    ensures e.None? <==> forall i: nat :: i < n ==> !Hits(ring, i, v)
    ensures e.Some? ==> e.value < n && Hits(ring, e.value, v)
    ensures e.Some? ==> forall i: nat :: i < n && Hits(ring, i, v) ==> HitX(ring, e.value, v) <= HitX(ring, i, v)
  {
    if n == 0 then None
    else
      var e := NearestBelow(ring, v, n - 1);
      if Hits(ring, n - 1, v) && (e.None? || HitX(ring, n - 1, v) < HitX(ring, e.value, v)) then Some(n - 1) else e
  }

  /** The hole walked from vertex `k`. */
  function FromVertex(hole: Ring, k: nat): Ring
    requires k < |hole|
  {
    seq(|hole|, step requires 0 <= step < |hole| => hole[(k + step) % |hole|])
  }

  lemma FromVertexTurns(hole: Ring, k: nat)
    requires k < |hole|
    ensures FromVertex(hole, k) == hole[k..] + hole[..k]
  {
    forall i: nat | i < |hole| ensures FromVertex(hole, k)[i] == (hole[k..] + hole[..k])[i] {
      Wraps(k + i, |hole|);
    }
  }

  function Splice(ring: Ring, e: nat, hit: Point, hole: Ring, k: nat): Ring
    requires e < |ring| && k < |hole|
  {
    ring[..e + 1] + [hit] + FromVertex(hole, k) + [hole[k], hit] + ring[e + 1..]
  }

  /** Where the edge meets a height, as the cut computes it. */
  function MeetsAt(a: Point, b: Point, y: real): (x: real)
    requires a.y != b.y
    ensures x == CrossX(a, b, y)
  {
    HitFormula(a, b, y);
    a.x + (y - a.y) / (b.y - a.y) * (b.x - a.x)
  }

  lemma HitFormula(a: Point, b: Point, y: real)
    requires a.y != b.y
    ensures a.x + (y - a.y) / (b.y - a.y) * (b.x - a.x) == CrossX(a, b, y)
  {
    var t := (y - a.y) / (b.y - a.y);
    assert t * (b.y - a.y) == y - a.y;
    calc {
      (t * (b.x - a.x)) * (b.y - a.y);
      (t * (b.y - a.y)) * (b.x - a.x);
      (b.x - a.x) * (y - a.y);
    }
    CrossXOnLine(a, b, y, a.x + t * (b.x - a.x));
  }

  function SpliceOf(ring: Ring, hole: Hole): Option<Ring>
  {
    var k := MaxIndexBelow(hole, |hole|);
    var e := NearestBelow(ring, hole[k], |ring|);
    if e.None? then None
    else Some(DropRepeatsOf(Splice(ring, e.value, Point(HitX(ring, e.value, hole[k]), hole[k].y), hole, k)))
  }

  method SpliceHole(ring: Ring, hole: Hole) returns (spliced: Option<Ring>)
    ensures spliced == SpliceOf(ring, hole)
  {
    hide CrossX, MeetsAt, MaxIndexBelow, DropRepeatsOf;
    var k := RightmostVertex(hole);
    var v := hole[k];
    var best: Option<(real, nat)> := None;
    var index := 0;
    while index < |ring|
      invariant 0 <= index <= |ring|
      invariant var e := NearestBelow(ring, v, index);
                best == if e.None? then None else Some((HitX(ring, e.value, v), e.value))
    {
      Wraps(index + 1, |ring|);
      var a, b := ring[index], ring[(index + 1) % |ring|];
      if (a.y > v.y) != (b.y > v.y) {
        var hitX := MeetsAt(a, b, v.y);
        if hitX >= v.x && (best.None? || hitX < best.value.0) { best := Some((hitX, index)); }
      }
      index := index + 1;
    }
    if best.None? { return None; }
    var hit := Point(best.value.0, v.y);
    var edge := best.value.1;
    var kept := DropRepeats(ring[..edge + 1] + [hit] + FromVertex(hole, k) + [hole[k], hit] + ring[edge + 1..]);
    return Some(kept);
  }

  method RightmostVertex(hole: Hole) returns (k: nat)
    ensures k == MaxIndexBelow(hole, |hole|)
  {
    k := 0;
    var i := 1;
    while i < |hole|
      invariant 1 <= i <= |hole| && k == MaxIndexBelow(hole, i)
    {
      if Less(hole[k], hole[i]) { k := i; }
      i := i + 1;
    }
  }

  // --- what a cut means ---------------------------------------------------------------------

  lemma SpliceAdds(ring: Ring, e: nat, hole: Ring, k: nat, q: Point)
    requires e < |ring| && k < |hole| && Hits(ring, e, hole[k])
    ensures var hit := Point(HitX(ring, e, hole[k]), hole[k].y);
            RingTally(Splice(ring, e, hit, hole, k), q) == RingTally(ring, q).Plus(RingTally(hole, q))
  {
    hide EdgeTally, PathTally, CrossX, Straddles;
    var v := hole[k];
    assert Straddles(ring[e], Next(ring, e), v.y);
    var hit := Point(HitX(ring, e, v), v.y);
    var a, b := ring[e], Next(ring, e);
    var loop := FromVertex(hole, k);
    FromVertexTurns(hole, k);
    RotateRing(hole, k, q);
    assert loop[0] == v;

    // Both closed walks, split at the edge that is cut.
    var front, back := ring[..e], (ring[e + 1..] + [ring[0]])[1..];
    var tail := [b] + back;
    assert ring[e + 1..] + [ring[0]] == tail;
    assert ring + [ring[0]] == front + [a] + tail;
    var outer := loop + [v];
    var closed := Splice(ring, e, hit, hole, k) + [ring[0]];
    assert closed == front + [a] + ([hit] + outer + [hit] + tail);
    JoinPaths(front, a, tail, q);
    JoinPaths(front, a, [hit] + outer + [hit] + tail, q);
    assert [a] + ([hit] + outer + [hit] + tail) == [a, hit] + (outer + ([hit] + tail));
    Detour(a, b, hit, v, outer, tail, q);
    SplitEdge(a, b, v.y, q);
    ThereAndBack(hit, v, q);
  }

  /** A walk that goes round a loop at `v` and then on. */
  lemma LoopThenOn(hit: Point, v: Point, outer: seq<Point>, tail: seq<Point>, q: Point)
    requires |outer| >= 2 && outer[0] == v && outer[|outer| - 1] == v && tail != []
    ensures PathTally(outer + ([hit] + tail), q)
         == PathTally(outer, q).Plus(EdgeTally(v, hit, q)).Plus(PathTally([hit] + tail, q))
  {
    hide EdgeTally, PathTally;
    var inner := outer[..|outer| - 1];
    assert inner + [v] == outer;
    assert inner + [v] + ([hit] + tail) == outer + ([hit] + tail);
    JoinPaths(inner, v, [hit] + tail, q);
    FirstEdge(v, [hit] + tail, q);
    hide *;
    PlusIsAssociative(PathTally(outer, q), EdgeTally(v, hit, q), PathTally([hit] + tail, q));
  }

  lemma PlusIsAssociative(a: Tally, b: Tally, c: Tally)
    ensures a.Plus(b.Plus(c)) == a.Plus(b).Plus(c)
  {}

  /** Leaving an edge at `hit`, walking a loop and coming back to it. */
  lemma Detour(a: Point, b: Point, hit: Point, v: Point, outer: seq<Point>, tail: seq<Point>, q: Point)
    requires |outer| >= 2 && outer[0] == v && outer[|outer| - 1] == v && tail != [] && tail[0] == b
    ensures PathTally([a, hit] + (outer + ([hit] + tail)), q)
         == EdgeTally(a, hit, q).Plus(EdgeTally(hit, v, q).Plus(
              PathTally(outer, q).Plus(EdgeTally(v, hit, q)).Plus(EdgeTally(hit, b, q).Plus(PathTally(tail, q)))))
    ensures PathTally([a] + tail, q) == EdgeTally(a, b, q).Plus(PathTally(tail, q))
  {
    hide EdgeTally, PathTally;
    var rest := outer + ([hit] + tail);
    assert [a, hit] + rest == [a] + ([hit] + rest);
    FirstEdge(a, tail, q);
    FirstEdge(a, [hit] + rest, q);
    FirstEdge(hit, rest, q);
    FirstEdge(hit, tail, q);
    LoopThenOn(hit, v, outer, tail, q);
  }

  /** Splicing a hole makes a ring that contains exactly the points in one of the two but not
      in both, and whose signed area is the sum of the two. */
  lemma SpliceMeaning(ring: Ring, hole: Hole, q: Point)
    requires SpliceOf(ring, hole).Some?
    ensures RingTally(SpliceOf(ring, hole).value, q) == RingTally(ring, q).Plus(RingTally(hole, q))
    ensures Inside(SpliceOf(ring, hole).value, q) <==> Inside(ring, q) != Inside(hole, q)
    ensures Area(SpliceOf(ring, hole).value) == Area(ring) + Area(hole)
  {
    var k := MaxIndexBelow(hole, |hole|);
    var e := NearestBelow(ring, hole[k], |ring|);
    var raw := Splice(ring, e.value, Point(HitX(ring, e.value, hole[k]), hole[k].y), hole, k);
    SpliceAdds(ring, e.value, hole, k, q);
    DropRepeatsKeeps(raw, q);
    AreaAnywhere(SpliceOf(ring, hole).value, q);
    AreaAnywhere(ring, q);
    AreaAnywhere(hole, q);
  }
}
