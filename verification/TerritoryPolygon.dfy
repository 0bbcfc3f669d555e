/** One ring for a polygon with holes: when the cuts exist, where they run and what they bound. */
module TerritoryPolygon {
  import opened Prelude
  import opened TerritoryRing
  import opened TerritorySplice

  // --- where a cut runs ---------------------------------------------------------------------

  /** No edge of the ring passes the cut strictly between the hole vertex and the hit. */
  lemma CutIsClear(ring: Ring, v: Point, e: nat, i: nat)
    requires NearestBelow(ring, v, |ring|) == Some(e) && i < |ring| && Straddles(ring[i], Next(ring, i), v.y)
    ensures !(v.x < CrossX(ring[i], Next(ring, i), v.y) < HitX(ring, e, v))
  {
    assert Hits(ring, i, v) || CrossX(ring[i], Next(ring, i), v.y) < v.x;
  }

  /** The whole cut, up to the hit, lies on the side of the ring its hole vertex lies on. */
  lemma CutStaysOnOneSide(ring: Ring, v: Point, e: nat, q: Point)
    requires NearestBelow(ring, v, |ring|) == Some(e)
    requires q.y == v.y && v.x <= q.x < HitX(ring, e, v)
    ensures Inside(ring, q) <==> Inside(ring, v)
  {
    var closed := ring + [ring[0]];
    forall i: nat | i < |closed| - 1 ensures Crosses(closed[i], closed[i + 1], q) <==>
        Crosses(closed[i], closed[i + 1], v) {
      assert closed[i] == ring[i] && closed[i + 1] == Next(ring, i);
      if Straddles(ring[i], Next(ring, i), v.y) {
        CutIsClear(ring, v, e, i);
        assert Hits(ring, i, v) || CrossX(ring[i], Next(ring, i), v.y) < v.x;
      }
    }
    SameCrossings(closed, q, v);
  }

  lemma {:induction false} SameCrossings(path: seq<Point>, q: Point, r: Point)
    requires forall i: nat :: i < |path| - 1 ==>
             (Crosses(path[i], path[i + 1], q) <==> Crosses(path[i], path[i + 1], r))
    ensures PathTally(path, q).odd == PathTally(path, r).odd
  {
    hide Crosses;
    if |path| >= 2 {
      assert Crosses(path[0], path[0 + 1], q) <==> Crosses(path[0], path[0 + 1], r);
      forall i: nat | i < |path[1..]| - 1 ensures Crosses(path[1..][i], path[1..][i + 1], q) <==>
          Crosses(path[1..][i], path[1..][i + 1], r) {
        assert Crosses(path[i + 1], path[i + 1 + 1], q) <==> Crosses(path[i + 1], path[i + 1 + 1], r);
      }
      SameCrossings(path[1..], q, r);
    }
  }

  /** A cut is found exactly when some edge of the ring is met. */
  lemma CutIffMet(ring: Ring, v: Point)
    ensures NearestBelow(ring, v, |ring|).Some? <==> RingTally(ring, v).met
  {
    if ring != [] {
      var closed := ring + [ring[0]];
      forall i: nat | i < |ring| ensures Meets(closed[i], closed[i + 1], v) <==> Hits(ring, i, v) {
        assert closed[i] == ring[i] && closed[i + 1] == Next(ring, i);
      }
      MetSomewhere(closed, v);
      hide Meets, Hits;
      if RingTally(ring, v).met {
        var i: nat :| i < |closed| - 1 && Meets(closed[i], closed[i + 1], v);
        assert Hits(ring, i, v);
      }
      if NearestBelow(ring, v, |ring|).Some? {
        var e := NearestBelow(ring, v, |ring|).value;
        assert Meets(closed[e], closed[e + 1], v);
      }
    }
  }

  lemma {:induction false} MetSomewhere(path: seq<Point>, q: Point)
    ensures PathTally(path, q).met <==> exists i: nat :: i < |path| - 1 && Meets(path[i], path[i + 1], q)
  {
    hide Meets, Crosses;
    if |path| >= 2 {
      var rest := path[1..];
      MetSomewhere(rest, q);
      if exists i: nat :: i < |rest| - 1 && Meets(rest[i], rest[i + 1], q) {
        var i: nat :| i < |rest| - 1 && Meets(rest[i], rest[i + 1], q);
        assert Meets(path[i + 1], path[i + 1 + 1], q);
      }
      if exists i: nat :: i < |path| - 1 && Meets(path[i], path[i + 1], q) {
        var i: nat :| i < |path| - 1 && Meets(path[i], path[i + 1], q);
        if i > 0 { assert Meets(rest[i - 1], rest[i - 1 + 1], q); }
      }
      assert Meets(path[0], path[0 + 1], q) == EdgeTally(path[0], path[1], q).met;
    }
  }

  /** A point inside a ring meets it: an odd number of crossings is not none. */
  lemma {:induction false} InsideMeets(path: seq<Point>, q: Point)
    ensures PathTally(path, q).odd ==> PathTally(path, q).met
  {
    if |path| >= 2 { InsideMeets(path[1..], q); }
  }

  // --- all holes ----------------------------------------------------------------------------

  /** Cut the holes in one after the other; `None` as soon as one finds no edge. */
  function SpliceAll(ring: Ring, holes: seq<Hole>): Option<Ring>
    decreases |holes|
  {
    if holes == [] then Some(ring)
    else
      var spliced := SpliceOf(ring, holes[0]);
      if spliced.None? then None else SpliceAll(spliced.value, holes[1..])
  }

  function HolesTally(holes: seq<Hole>, q: Point): Tally {
    if holes == [] then NOTHING else RingTally(holes[0], q).Plus(HolesTally(holes[1..], q))
  }

  lemma {:induction false} SpliceAllAdds(ring: Ring, holes: seq<Hole>, q: Point)
    requires SpliceAll(ring, holes).Some?
    ensures RingTally(SpliceAll(ring, holes).value, q) == RingTally(ring, q).Plus(HolesTally(holes, q))
    decreases |holes|
  {
    if holes != [] {
      SpliceMeaning(ring, holes[0], q);
      hide SpliceOf, RingTally;
      SpliceAllAdds(SpliceOf(ring, holes[0]).value, holes[1..], q);
    }
  }

  /** A polygon with holes: inside the exterior and inside no hole. */
  ghost predicate PolygonContains(exterior: Ring, holes: seq<Hole>, q: Point) {
    Inside(exterior, q) && forall h :: h in holes ==> !Inside(h, q)
  }

  ghost predicate Overlap(g: Hole, h: Hole) { exists q :: Inside(g, q) && Inside(h, q) }

  /** No two holes share a point. */
  ghost predicate Disjoint(holes: seq<Hole>) {
    forall i: nat, j: nat :: i < j < |holes| ==> !Overlap(holes[i], holes[j])
  }

  ghost predicate Within(exterior: Ring, holes: seq<Hole>) {
    forall h, q {:trigger Inside(h, q)} :: h in holes && Inside(h, q) ==> Inside(exterior, q)
  }

  lemma OneHoleOnly(holes: seq<Hole>, q: Point)
    requires Disjoint(holes) && holes != [] && Inside(holes[0], q)
    ensures forall h :: h in holes[1..] ==> !Inside(h, q)
  {
    forall j: nat | 0 < j < |holes| ensures !Inside(holes[j], q) { assert !Overlap(holes[0], holes[j]); }
  }

  lemma {:induction false} DisjointTally(holes: seq<Hole>, q: Point)
    requires Disjoint(holes)
    ensures HolesTally(holes, q).odd <==> exists h :: h in holes && Inside(h, q)
  {
    if holes != [] {
      assert holes == [holes[0]] + holes[1..];
      forall i: nat, j: nat | i < j < |holes[1..]| ensures !Overlap(holes[1..][i], holes[1..][j]) {
        assert !Overlap(holes[i + 1], holes[j + 1]);
      }
      DisjointTally(holes[1..], q);
      if Inside(holes[0], q) { OneHoleOnly(holes, q); }
    }
  }

  /** Every cut has an edge to end at: of the exterior, or of a hole cut in before. */
  ghost predicate CutsExist(exterior: Ring, holes: seq<Hole>) {
    forall k: nat {:trigger CutExists(exterior, holes, k)} :: k < |holes| ==> CutExists(exterior, holes, k)
  }

  ghost predicate CutExists(exterior: Ring, holes: seq<Hole>, k: nat)
    requires k < |holes|
  {
    RingTally(exterior, Anchor(holes[k])).met || HolesTally(holes[..k], Anchor(holes[k])).met
  }

  /** Once a hole is cut in, its edges are edges of the ring. */
  lemma CutAfterFirst(ring: Ring, holes: seq<Hole>, k: nat)
    requires holes != [] && SpliceOf(ring, holes[0]).Some? && k < |holes| - 1
    ensures CutExists(SpliceOf(ring, holes[0]).value, holes[1..], k) <==> CutExists(ring, holes, k + 1)
  {
    SpliceMeaning(ring, holes[0], Anchor(holes[k + 1]));
    hide RingTally, SpliceOf, Anchor;
    assert holes[..k + 1][0] == holes[0] && holes[..k + 1][1..] == holes[1..][..k];
  }

  lemma CutsAfterFirst(ring: Ring, holes: seq<Hole>)
    requires holes != [] && SpliceOf(ring, holes[0]).Some?
    ensures CutsExist(ring, holes) <==>
            CutExists(ring, holes, 0) && CutsExist(SpliceOf(ring, holes[0]).value, holes[1..])
  {
    hide CutExists, SpliceOf;
    var spliced := SpliceOf(ring, holes[0]).value;
    if CutsExist(ring, holes) {
      forall k: nat | k < |holes[1..]| ensures CutExists(spliced, holes[1..], k) {
        assert CutExists(ring, holes, k + 1);
        CutAfterFirst(ring, holes, k);
      }
    }
    if CutExists(ring, holes, 0) && CutsExist(spliced, holes[1..]) {
      forall k: nat | k < |holes| ensures CutExists(ring, holes, k) {
        if k > 0 {
          assert CutExists(spliced, holes[1..], k - 1);
          CutAfterFirst(ring, holes, k - 1);
        }
      }
    }
  }

  /** The cuts succeed exactly when that holds. */
  lemma {:induction false} HolesAreCutIff(ring: Ring, holes: seq<Hole>)
    ensures SpliceAll(ring, holes).Some? <==> CutsExist(ring, holes)
    decreases |holes|
  {
    if holes != [] {
      CutIffMet(ring, Anchor(holes[0]));
      assert CutExists(ring, holes, 0) <==> SpliceOf(ring, holes[0]).Some?;
      hide CutExists, SpliceOf;
      if SpliceOf(ring, holes[0]).Some? {
        CutsAfterFirst(ring, holes);
        HolesAreCutIff(SpliceOf(ring, holes[0]).value, holes[1..]);
      }
    }
  }

  // --- the order of the cuts ----------------------------------------------------------------

  /** Holes by their greatest vertex, greatest first; holes that tie keep their order. */
  function Insert(hole: Hole, sorted: seq<Hole>): seq<Hole>
  {
    if sorted == [] then [hole]
    else if Less(Anchor(hole), Anchor(sorted[0])) then [sorted[0]] + Insert(hole, sorted[1..])
    else [hole] + sorted
  }

  function SortHoles(holes: seq<Hole>): seq<Hole> {
    if holes == [] then []
    else
      Insert(holes[0], SortHoles(holes[1..]))
  }

  ghost predicate Descending(holes: seq<Hole>)
  {
    forall i: nat, j: nat {:trigger holes[i], holes[j]} :: i < j < |holes| ==> !Less(Anchor(holes[i]), Anchor(holes[j]))
  }

  lemma {:induction false} InsertMembers(hole: Hole, sorted: seq<Hole>)
    ensures forall h :: h in Insert(hole, sorted) <==> h == hole || h in sorted
  {
    if sorted != [] {
      assert sorted == [sorted[0]] + sorted[1..];
      InsertMembers(hole, sorted[1..]);
    }
  }

  lemma {:induction false} InsertDescends(hole: Hole, sorted: seq<Hole>)
    requires Descending(sorted)
    ensures Descending(Insert(hole, sorted))
  {
    hide Anchor;
    InsertMembers(hole, sorted);
    var r := Insert(hole, sorted);
    if sorted != [] {
      var rest := sorted[1..];
      assert Descending(rest);
      InsertDescends(hole, rest);
      InsertMembers(hole, rest);
      if Less(Anchor(hole), Anchor(sorted[0])) {
        forall j: nat | 0 < j < |r| ensures !Less(Anchor(r[0]), Anchor(r[j])) {
          assert r[j] in Insert(hole, rest);
          if r[j] != hole { var m: nat :| m < |rest| && rest[m] == r[j]; assert sorted[m + 1] == r[j]; }
        }
        forall i: nat, j: nat | i < j < |r| ensures !Less(Anchor(r[i]), Anchor(r[j])) {
          if i > 0 { assert Insert(hole, rest)[i - 1] == r[i] && Insert(hole, rest)[j - 1] == r[j]; }
        }
      } else {
        forall i: nat, j: nat | i < j < |r| ensures !Less(Anchor(r[i]), Anchor(r[j])) {
          assert r[j] == sorted[j - 1];
          if i > 0 { assert r[i] == sorted[i - 1]; }
              else if j > 1 { assert !Less(Anchor(sorted[0]), Anchor(sorted[j - 1])); }
        }
      }
    }
  }

  /** Sorting keeps the holes, and puts the one that reaches furthest right first. */
  lemma {:induction false} SortedHoles(holes: seq<Hole>)
    ensures forall h :: h in SortHoles(holes) <==> h in holes
    ensures Descending(SortHoles(holes))
  {
    if holes != [] {
      assert holes == [holes[0]] + holes[1..];
      SortedHoles(holes[1..]);
      InsertMembers(holes[0], SortHoles(holes[1..]));
      InsertDescends(holes[0], SortHoles(holes[1..]));
    }
  }

  lemma {:induction false} InsertTally(hole: Hole, sorted: seq<Hole>, q: Point)
    ensures HolesTally(Insert(hole, sorted), q) == RingTally(hole, q).Plus(HolesTally(sorted, q))
  {
    hide RingTally;
    if sorted == [] {
      assert HolesTally([hole], q) == RingTally(hole, q).Plus(HolesTally([], q));
    } else if Less(Anchor(hole), Anchor(sorted[0])) {
      InsertTally(hole, sorted[1..], q);
      assert Insert(hole, sorted)[1..] == Insert(hole, sorted[1..]);
    } else {
      assert Insert(hole, sorted)[1..] == sorted;
    }
  }

  lemma {:induction false} SortTally(holes: seq<Hole>, q: Point)
    ensures HolesTally(SortHoles(holes), q) == HolesTally(holes, q)
  {
    if holes != [] {
      SortTally(holes[1..], q);
      InsertTally(holes[0], SortHoles(holes[1..]), q);
    }
  }

  /** A hole cut in later never reaches the cut of an earlier one: all of it lies at or left of
      the vertex that cut starts from. */
  lemma LaterHolesStayLeft(holes: seq<Hole>, i: nat, j: nat, e: nat, y: real)
    requires i < j < |SortHoles(holes)|
    requires e < |SortHoles(holes)[j]| && Straddles(SortHoles(holes)[j][e], Next(SortHoles(holes)[j], e), y)
    ensures CrossX(SortHoles(holes)[j][e], Next(SortHoles(holes)[j], e), y) <= Anchor(SortHoles(holes)[i]).x
  {
    var sorted := SortHoles(holes);
    SortedHoles(holes);
    var later := sorted[j];
    assert sorted[i] in sorted && later in sorted;
    assert !Less(Anchor(sorted[i]), Anchor(later));
    assert later[e] in later && Next(later, e) in later;
    CrossXBetween(later[e], Next(later, e), y, Anchor(sorted[i]).x);
  }

  // --- the single ring ----------------------------------------------------------------------

  datatype Boundary = Single(ring: Ring) | NoCut | Mismatch

  const SLACK := 0.000000001

  /** The area and probe comparison made after the cuts. */
  predicate Matches(ring: Ring, area: real, inside: Point, probes: seq<Point>) {
    var slack := SLACK * (if area > 1.0 then area else 1.0);
    && -slack <= Area(ring) - area <= slack
    && Inside(ring, inside)
    && forall p :: p in probes ==> !Inside(ring, p)
  }

  /** The result as the geometry decides it. */
  function BoundaryOf(exterior: Ring, holes: seq<Hole>, area: real, inside: Point, probes: seq<Point>): Boundary
  {
    var ring := SpliceAll(exterior, SortHoles(holes));
    if ring.None? then NoCut
    else if holes != [] && !Matches(ring.value, area, inside, probes) then Mismatch
    else Single(ring.value)
  }

  /** `inside` and `probes` are the representative points of the polygon and of its holes. */
  method SingleRing(exterior: Ring, holes: seq<Hole>, area: real, inside: Point, probes: seq<Point>)
          returns (b: Boundary)
    ensures b == BoundaryOf(exterior, holes, area, inside, probes)
  {
    hide SpliceOf, Area, Inside;
    var ring := exterior;
    var sorted := SortHoles(holes);
    var i := 0;
    while i < |sorted|
      invariant 0 <= i <= |sorted|
      invariant SpliceAll(ring, sorted[i..]) == SpliceAll(exterior, sorted)
    {
      assert sorted[i..][0] == sorted[i] && sorted[i..][1..] == sorted[i + 1..];
      var spliced := SpliceHole(ring, sorted[i]);
      if spliced.None? { return NoCut; }
      ring := spliced.value;
      i := i + 1;
    }
    if holes != [] {
      var matches := CheckRing(ring, area, inside, probes);
      if !matches { return Mismatch; }
    }
    return Single(ring);
  }

  method CheckRing(ring: Ring, area: real, inside: Point, probes: seq<Point>) returns (matches: bool)
    ensures matches == Matches(ring, area, inside, probes)
  {
    hide Area, Inside;
    var measured := SignedArea(ring);
    var slack := SLACK * (if area > 1.0 then area else 1.0);
    var difference := if measured < area then area - measured else measured - area;
    if difference > slack { return false; }
    var contained := EvenOddContains(ring, inside.x, inside.y);
    if !contained { return false; }
    var i := 0;
    while i < |probes|
      invariant 0 <= i <= |probes|
      invariant forall p :: p in probes[..i] ==> !Inside(ring, p)
    {
      var filled := EvenOddContains(ring, probes[i].x, probes[i].y);
      if filled {
        assert probes[i] in probes;
        return false;
      }
      assert probes[..i + 1] == probes[..i] + [probes[i]];
      i := i + 1;
    }
    assert probes[..|probes|] == probes;
    return true;
  }

  function HolesArea(holes: seq<Hole>): real {
    if holes == [] then 0.0 else Area(holes[0]) + HolesArea(holes[1..])
  }

  lemma {:induction false} HolesAreaSwept(holes: seq<Hole>, q: Point)
    ensures HolesTally(holes, q).swept == 2.0 * HolesArea(holes)
  {
    if holes != [] {
      AreaAnywhere(holes[0], q);
      HolesAreaSwept(holes[1..], q);
    }
  }

  /** Whatever ring comes out bounds exactly the polygon, with its exact signed area. */
  lemma SingleRingIsExact(exterior: Ring, holes: seq<Hole>, area: real, inside: Point, probes: seq<Point>, q: Point)
    requires Disjoint(holes) && Within(exterior, holes)
    requires BoundaryOf(exterior, holes, area, inside, probes).Single?
    ensures var ring := BoundaryOf(exterior, holes, area, inside, probes).ring;
            && (Inside(ring, q) <==> PolygonContains(exterior, holes, q))
            && Area(ring) == Area(exterior) + HolesArea(holes)
  {
    RingOfCuts(exterior, holes, q);
  }

  lemma RingOfCuts(exterior: Ring, holes: seq<Hole>, q: Point)
    requires Disjoint(holes) && Within(exterior, holes)
    requires SpliceAll(exterior, SortHoles(holes)).Some?
    ensures var ring := SpliceAll(exterior, SortHoles(holes)).value;
            && (Inside(ring, q) <==> PolygonContains(exterior, holes, q))
            && Area(ring) == Area(exterior) + HolesArea(holes)
  {
    var ring := SpliceAll(exterior, SortHoles(holes)).value;
    SpliceAllAdds(exterior, SortHoles(holes), q);
    SortTally(holes, q);
    DisjointTally(holes, q);
    HolesAreaSwept(holes, q);
    AreaAnywhere(ring, q);
    AreaAnywhere(exterior, q);
  }

  /** The area given differs from the polygon's by at most a billionth of itself, or of 1 if it is
      smaller; the given point is in the polygon and no probe is. */
  ghost predicate FitsPolygon(exterior: Ring, holes: seq<Hole>, area: real, inside: Point, probes: seq<Point>) {
    var difference := Area(exterior) + HolesArea(holes) - area;
    && (difference > 0.0 ==> 1000000000.0 * difference <= if area > 1.0 then area else 1.0)
    && (difference < 0.0 ==> -1000000000.0 * difference <= if area > 1.0 then area else 1.0)
    && PolygonContains(exterior, holes, inside)
    && (forall p :: p in probes ==> !PolygonContains(exterior, holes, p))
  }

  /** With all cuts found, the check after them fails exactly if what it is given does not fit the
      polygon; a polygon without holes is not checked. */
  lemma MismatchIff(exterior: Ring, holes: seq<Hole>, area: real, inside: Point, probes: seq<Point>)
    requires Disjoint(holes) && Within(exterior, holes) && CutsExist(exterior, SortHoles(holes))
    ensures BoundaryOf(exterior, holes, area, inside, probes).Mismatch? <==>
            holes != [] && !FitsPolygon(exterior, holes, area, inside, probes)
    ensures !BoundaryOf(exterior, holes, area, inside, probes).NoCut?
  {
    HolesAreCutIff(exterior, SortHoles(holes));
    var ring := SpliceAll(exterior, SortHoles(holes)).value;
    RingOfCuts(exterior, holes, inside);
    forall p | p in probes ensures Inside(ring, p) <==> PolygonContains(exterior, holes, p) {
      RingOfCuts(exterior, holes, p);
    }
    hide Area, Inside, PolygonContains, HolesArea, SpliceAll, SortHoles;
  }

  /** The polygon as the geometry library describes it: oriented rings, its area, a point of it
      and a point of each hole. */
  ghost predicate Described(exterior: Ring, holes: seq<Hole>, area: real, inside: Point, probes: seq<Point>) {
    && area == Area(exterior) + HolesArea(holes)
    && PolygonContains(exterior, holes, inside)
    && (forall p :: p in probes ==> exists h :: h in holes && Inside(h, p))
  }

  /** For a polygon with disjoint holes in its exterior, neither error is raised exactly when
      every cut has an edge to end at. */
  lemma SingleRingSucceedsIff(exterior: Ring, holes: seq<Hole>, area: real, inside: Point, probes: seq<Point>)
    requires Disjoint(holes) && Within(exterior, holes)
    requires Described(exterior, holes, area, inside, probes)
    ensures BoundaryOf(exterior, holes, area, inside, probes).Single? <==> CutsExist(exterior, SortHoles(holes))
  {
    var sorted := SortHoles(holes);
    HolesAreCutIff(exterior, sorted);
    if SpliceAll(exterior, sorted).Some? {
      var ring := SpliceAll(exterior, sorted).value;
      RingOfCuts(exterior, holes, inside);
      forall p | p in probes ensures !Inside(ring, p) {
        RingOfCuts(exterior, holes, p);
      }
      hide Area, Inside;
      assert SLACK * (if area > 1.0 then area else 1.0) > 0.0;
    }
  }

  /** It does when the vertex each cut starts from is strictly inside the exterior. */
  lemma AnchoredHolesHaveCuts(exterior: Ring, holes: seq<Hole>)
    requires forall h :: h in holes ==> Inside(exterior, Anchor(h))
    ensures CutsExist(exterior, SortHoles(holes))
  {
    SortedHoles(holes);
    var sorted := SortHoles(holes);
    forall k: nat | k < |sorted| ensures CutExists(exterior, sorted, k) {
      assert sorted[k] in sorted && sorted[k] in holes;
      InsideMeets(exterior + [exterior[0]], Anchor(sorted[k]));
    }
  }

  lemma TriangleTally(a: Point, b: Point, c: Point, q: Point)
    ensures Inside([a, b, c], q) <==> (Crosses(a, b, q) != Crosses(b, c, q)) != Crosses(c, a, q)
  {
    hide Crosses, Meets, Cross;
    var ring := [a, b, c];
    assert ring + [ring[0]] == [a] + [b, c, a] && [b, c, a] == [b] + [c, a];
    FirstEdge(a, [b, c, a], q);
    FirstEdge(b, [c, a], q);
    EdgePath(c, a, q);
  }

  lemma QuadrilateralTally(a: Point, b: Point, c: Point, d: Point, q: Point)
    ensures Inside([a, b, c, d], q) <==>
            ((Crosses(a, b, q) != Crosses(b, c, q)) != Crosses(c, d, q)) != Crosses(d, a, q)
  {
    hide Crosses, Meets, Cross;
    var ring := [a, b, c, d];
    assert ring + [ring[0]] == [a] + [b, c, d, a] && [b, c, d, a] == [b] + [c, d, a] && [c, d, a] == [c] + [d, a];
    FirstEdge(a, [b, c, d, a], q);
    FirstEdge(b, [c, d, a], q);
    FirstEdge(c, [d, a], q);
    EdgePath(d, a, q);
  }

  /** Whatever the triangle, its area is half the cross product of two sides. */
  lemma TriangleArea(a: Point, b: Point, c: Point)
    ensures 2.0 * Area([a, b, c]) == (b.x - a.x) * (c.y - a.y) - (c.x - a.x) * (b.y - a.y)
  {
    hide Crosses, Meets;
    var q, ring := Point(0.0, 0.0), [a, b, c];
    assert ring + [ring[0]] == [a] + [b, c, a] && [b, c, a] == [b] + [c, a];
    FirstEdge(a, [b, c, a], q);
    FirstEdge(b, [c, a], q);
    EdgePath(c, a, q);
  }

  lemma UprightEdge(x: real, y0: real, y1: real, y: real)
    requires y0 != y1
    ensures CrossX(Point(x, y0), Point(x, y1), y) == x
  {}

  /** The interior by the even-odd rule, on upright rectangles: the left and bottom sides belong to it. */
  lemma RectangleInside(x0: real, y0: real, x1: real, y1: real, q: Point)
    requires x0 < x1 && y0 < y1
    ensures Inside([Point(x0, y0), Point(x1, y0), Point(x1, y1), Point(x0, y1)], q) <==>
            x0 <= q.x < x1 && y0 <= q.y < y1
  {
    QuadrilateralTally(Point(x0, y0), Point(x1, y0), Point(x1, y1), Point(x0, y1), q);
    UprightEdge(x1, y0, y1, q.y);
    UprightEdge(x0, y1, y0, q.y);
    hide CrossX;
  }

  /** That is not every such polygon: a hole that touches the top edge of its exterior lies in
      it, yet its ray runs along that edge and meets none, and the error is raised. */
  lemma TouchingHoleHasNoCut(area: real, inside: Point, probes: seq<Point>) returns (exterior: Ring, hole: Hole)
    ensures Disjoint([hole]) && Within(exterior, [hole]) && !Inside(exterior, Anchor(hole))
    ensures BoundaryOf(exterior, [hole], area, inside, probes).NoCut?
  {
    var a, b, c, d := Point(0.0, 0.0), Point(4.0, 0.0), Point(4.0, 4.0), Point(0.0, 4.0);
    var u, v, w := Point(1.0, 1.0), Point(2.0, 4.0), Point(2.0, 1.0);
    exterior := [a, b, c, d];
    hole := [u, v, w];
    forall q | Inside(hole, q) ensures Inside(exterior, q) {
      TriangleTally(u, v, w, q);
      QuadrilateralTally(a, b, c, d, q);
      TouchingNested(q);
    }
    RightmostOfThree(hole);
    QuadrilateralTally(a, b, c, d, v);
    forall i: nat | i < 4 ensures !Hits(exterior, i, v) {}
    assert SortHoles([hole][1..]) == [] && SortHoles([hole]) == [hole];
  }

  lemma TouchingNested(q: Point)
    requires (Crosses(Point(1.0, 1.0), Point(2.0, 4.0), q) != Crosses(Point(2.0, 4.0), Point(2.0, 1.0),
             q)) != Crosses(Point(2.0, 1.0), Point(1.0, 1.0), q)
    ensures ((Crosses(Point(0.0, 0.0), Point(4.0, 0.0), q) != Crosses(Point(4.0, 0.0), Point(4.0, 4.0), q))
             != Crosses(Point(4.0, 4.0), Point(0.0, 4.0), q)) != Crosses(Point(0.0, 4.0), Point(0.0, 0.0), q)
  {}

  lemma RightmostOfThree(hole: Hole)
    requires hole == [Point(1.0, 1.0), Point(2.0, 4.0), Point(2.0, 1.0)]
    ensures MaxIndexBelow(hole, |hole|) == 1
  {
    assert MaxIndexBelow(hole, 1) == 0 && MaxIndexBelow(hole, 2) == 1;
  }
}
