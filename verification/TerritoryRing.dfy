/**
Rings over the exact plane: even-odd membership, signed area, and why subdividing an edge,
repeating a vertex, rotating a ring or inserting a cut walked both ways changes neither.
*/
module TerritoryRing {
  datatype Point = Point(x: real, y: real)
  type Ring = seq<Point>

  // --- one edge -----------------------------------------------------------------------------

  /** The edge passes the horizontal line at `y`; a vertex on the line counts as below it. */
  predicate Straddles(a: Point, b: Point, y: real) { (a.y > y) != (b.y > y) }

  /** Where the line through the edge meets the horizontal line at `y`. */
  function CrossX(a: Point, b: Point, y: real): real
    requires a.y != b.y
  {
    (b.x - a.x) * (y - a.y) / (b.y - a.y) + a.x
  }

  /** A rightward ray from `q` crosses the edge. */
  predicate Crosses(a: Point, b: Point, q: Point) {
    Straddles(a, b, q.y) && q.x < CrossX(a, b, q.y)
  }

  /** A rightward ray from `q`, its start included, touches the edge where it passes. */
  predicate Meets(a: Point, b: Point, q: Point) {
    Straddles(a, b, q.y) && q.x <= CrossX(a, b, q.y)
  }

  function Cross(a: Point, b: Point): real { a.x * b.y - b.x * a.y }

  /** What an edge, a path or a ring contributes: whether a ray from the query point crosses it
      an odd number of times, whether such a ray meets it at all, and twice the signed area it
      sweeps. */
  datatype Tally = Tally(odd: bool, met: bool, swept: real) {
    function Plus(other: Tally): Tally { Tally(odd != other.odd, met || other.met, swept + other.swept) }
  }

  const NOTHING := Tally(false, false, 0.0)

  function EdgeTally(a: Point, b: Point, q: Point): Tally { Tally(Crosses(a, b, q), Meets(a, b, q), Cross(a, b)) }

  /** `CrossX` is the one abscissa on the line through the edge. */
  lemma CrossXOnLine(a: Point, b: Point, y: real, c: real)
    requires a.y != b.y
    ensures c == CrossX(a, b, y) <==> (c - a.x) * (b.y - a.y) == (b.x - a.x) * (y - a.y)
  {
    var d := b.y - a.y;
    var n := (b.x - a.x) * (y - a.y);
    assert (n / d) * d == n;
    if (c - a.x) * d == n { Cancels(c - a.x, n / d, d); }
  }

  lemma Cancels(u: real, v: real, d: real)
    requires d != 0.0 && u * d == v * d
    ensures u == v
  {
    assert (u - v) * d == 0.0;
  }

  lemma CrossXSymmetric(a: Point, b: Point, y: real)
    requires a.y != b.y
    ensures CrossX(a, b, y) == CrossX(b, a, y)
  {
    var c := CrossX(a, b, y);
    CrossXOnLine(a, b, y, c);
    CrossXOnLine(b, a, y, c);
    assert (c - b.x) * (a.y - b.y) - (a.x - b.x) * (y - b.y) == (b.x - a.x) * (y - a.y) - (c - a.x) * (b.y - a.y);
  }

  /** The point of the edge at height `y` lies between its ends. */
  lemma CrossXBetween(a: Point, b: Point, y: real, hi: real)
    requires Straddles(a, b, y) && a.x <= hi && b.x <= hi
    ensures CrossX(a, b, y) <= hi
  {
    var c := CrossX(a, b, y);
    var d := b.y - a.y;
    CrossXOnLine(a, b, y, c);
    // (c - a.x) and (b.x - a.x) are scaled by heights of the same sign, 0 <= |y - a.y| <= |d|.
    if d > 0.0 {
      Scaled(c - a.x, b.x - a.x, d, y - a.y);
    } else {
      Scaled(c - a.x, b.x - a.x, -d, a.y - y);
    }
  }

  lemma Scaled(u: real, v: real, d: real, t: real)
    requires d > 0.0 && 0.0 <= t <= d && u * d == v * t
    ensures u <= 0.0 || u <= v
  {
    if v <= 0.0 {
      assert v * t <= 0.0;
    } else {
      assert v * t <= v * d;
    }
  }

  // --- the algebra of edges -----------------------------------------------------------------

  /** Cut at a height it passes, an edge passes every height with exactly one of its halves,
      and at the same place. */
  lemma HalvesPass(a: Point, b: Point, y: real, h: Point, z: real)
    requires Straddles(a, b, y) && h == Point(CrossX(a, b, y), y)
    ensures !(Straddles(a, h, z) && Straddles(h, b, z))
    ensures Straddles(a, b, z) <==> Straddles(a, h, z) || Straddles(h, b, z)
    ensures Straddles(a, h, z) ==> CrossX(a, h, z) == CrossX(a, b, z)
    ensures Straddles(h, b, z) ==> CrossX(h, b, z) == CrossX(a, b, z)
  {
    CrossXOnLine(a, b, y, h.x);
    if Straddles(a, h, z) { SameLine(a, b, h, z); }
    if Straddles(h, b, z) {
      CrossXSymmetric(a, b, z);
      CrossXSymmetric(h, b, z);
      CrossXSymmetric(a, b, y);
      CrossXOnLine(b, a, y, h.x);
      SameLine(b, a, h, z);
    }
  }

  /** Cutting an edge at a height it passes replaces it by two edges that tally the same. */
  lemma SplitEdge(a: Point, b: Point, y: real, q: Point)
    requires Straddles(a, b, y)
    ensures EdgeTally(a, b, q) == EdgeTally(a, Point(CrossX(a, b, y), y),
            q).Plus(EdgeTally(Point(CrossX(a, b, y), y), b, q))
  {
    var h := Point(CrossX(a, b, y), y);
    HalvesPass(a, b, y, h, q.y);
    SweptAlong(a, b, y, h);
    hide CrossX, Straddles, Cross;
  }

  lemma SweptAlong(a: Point, b: Point, y: real, h: Point)
    requires a.y != b.y && h == Point(CrossX(a, b, y), y)
    ensures Cross(a, b) == Cross(a, h) + Cross(h, b)
  {
    CrossXOnLine(a, b, y, h.x);
    assert Cross(a, h) + Cross(h, b) - Cross(a, b) == (h.x - a.x) * (b.y - a.y) - (b.x - a.x) * (h.y - a.y);
  }

  /** A point on the line through an edge spans the same line with either end. */
  lemma SameLine(a: Point, b: Point, h: Point, y: real)
    requires a.y != b.y && a.y != h.y
    requires (h.x - a.x) * (b.y - a.y) == (b.x - a.x) * (h.y - a.y)
    ensures CrossX(a, h, y) == CrossX(a, b, y)
  {
    var c := CrossX(a, b, y);
    CrossXOnLine(a, b, y, c);
    var d, run, u, v, w, z := b.y - a.y, b.x - a.x, h.x - a.x, h.y - a.y, c - a.x, y - a.y;
    assert w * d == run * z && u * d == run * v;
    calc {
      (w * v) * d;
      (w * d) * v;
      (run * z) * v;
      (run * v) * z;
      (u * d) * z;
      (u * z) * d;
    }
    Cancels(w * v, u * z, d);
    CrossXOnLine(a, h, y, c);
  }

  /** A horizontal edge walked there and back tallies nothing. */
  lemma ThereAndBack(u: Point, v: Point, q: Point)
    requires u.y == v.y
    ensures EdgeTally(u, v, q).Plus(EdgeTally(v, u, q)) == NOTHING
  {}

  lemma NoEdge(v: Point, q: Point)
    ensures EdgeTally(v, v, q) == NOTHING
  {}

  // --- paths and rings ----------------------------------------------------------------------

  function PathTally(path: seq<Point>, q: Point): Tally {
    if |path| < 2 then NOTHING else EdgeTally(path[0], path[1], q).Plus(PathTally(path[1..], q))
  }

  function RingTally(ring: Ring, q: Point): Tally {
    if ring == [] then NOTHING else PathTally(ring + [ring[0]], q)
  }

  /** Membership by the even-odd rule. */
  predicate Inside(ring: Ring, q: Point) { RingTally(ring, q).odd }

  function Area(ring: Ring): real { RingTally(ring, Point(0.0, 0.0)).swept / 2.0 }

  /** Two paths that share an end vertex tally as one. */
  lemma {:induction false} JoinPaths(p: seq<Point>, v: Point, r: seq<Point>, q: Point)
    ensures PathTally(p + [v] + r, q) == PathTally(p + [v], q).Plus(PathTally([v] + r, q))
  {
    hide EdgeTally;
    if p == [] {
      assert [] + [v] + r == [v] + r && [] + [v] == [v];
    } else {
      var rest := p[1..];
      assert p == [p[0]] + rest;
      var next := (rest + [v])[0];
      assert p + [v] == [p[0]] + (rest + [v]) && p + [v] + r == [p[0]] + (rest + [v] + r);
      JoinPaths(rest, v, r, q);
      FirstEdge(p[0], rest + [v], q);
      FirstEdge(p[0], rest + [v] + r, q);
    }
  }

  lemma FirstEdge(a: Point, path: seq<Point>, q: Point)
    requires path != []
    ensures PathTally([a] + path, q) == EdgeTally(a, path[0], q).Plus(PathTally(path, q))
  {
    assert ([a] + path)[1..] == path;
  }

  lemma EdgePath(a: Point, b: Point, q: Point)
    ensures PathTally([a, b], q) == EdgeTally(a, b, q)
  {
    assert [a, b][1..] == [b];
    assert PathTally([b], q) == NOTHING;
  }

  /** Twice the area does not depend on the query point. */
  lemma {:induction false} SweptAnywhere(path: seq<Point>, q: Point, r: Point)
    ensures PathTally(path, q).swept == PathTally(path, r).swept
  {
    if |path| >= 2 { SweptAnywhere(path[1..], q, r); }
  }

  lemma AreaAnywhere(ring: Ring, q: Point)
    ensures RingTally(ring, q).swept == 2.0 * Area(ring)
  {
    if ring != [] { SweptAnywhere(ring + [ring[0]], q, Point(0.0, 0.0)); }
  }

  /** A ring may be walked from any of its vertices. */
  lemma RotateRing(ring: Ring, k: nat, q: Point)
    requires k < |ring|
    ensures RingTally(ring[k..] + ring[..k], q) == RingTally(ring, q)
  {
    var front, back := ring[..k], ring[k + 1..];
    var v := ring[k];
    if k == 0 {
      assert ring[0..] + ring[..0] == ring;
    } else {
      var first := ring[0];
      assert ring + [first] == front + [v] + (back + [first]);
      JoinPaths(front, v, back + [first], q);
      var turned := ring[k..] + ring[..k];
      assert turned + [v] == ([v] + back) + [first] + (front[1..] + [v]);
      JoinPaths([v] + back, first, front[1..] + [v], q);
      assert [v] + (back + [first]) == ([v] + back) + [first];
      assert [first] + (front[1..] + [v]) == front + [v];
    }
  }

  /** The edge that closes a ring, split off. */
  lemma CloseRing(ring: Ring, q: Point)
    requires ring != []
    ensures RingTally(ring, q) == PathTally(ring, q).Plus(EdgeTally(ring[|ring| - 1], ring[0], q))
  {
    var last := ring[|ring| - 1];
    assert ring + [ring[0]] == ring[..|ring| - 1] + [last] + [ring[0]];
    assert ring == ring[..|ring| - 1] + [last];
    JoinPaths(ring[..|ring| - 1], last, [ring[0]], q);
    assert [last] + [ring[0]] == [last, ring[0]];
    EdgePath(last, ring[0], q);
  }

  /** Nothing is inside a ring at or right of all its vertices. */
  lemma {:induction false} PathLeftOf(path: seq<Point>, q: Point)
    requires forall v :: v in path ==> v.x <= q.x
    ensures !PathTally(path, q).odd
  {
    if |path| >= 2 {
      PathLeftOf(path[1..], q);
      if Straddles(path[0], path[1], q.y) { CrossXBetween(path[0], path[1], q.y, q.x); }
    }
  }
}
