/** Exactly which effective ranges of a caller's own the hybrid serves on every map. */
module HybridHooks {
  import opened Prelude
  import opened CoverageCells
  import opened HybridCoverage

  // --- a rational direction close to that of an offset --------------------------------------

  lemma SquareStep(base: real, gap: real, m: real, s: real)
    requires base > 0.0 && gap > 0.0 && m >= 1.0 && gap * m >= 2.0 * base + 1.0 && 0.0 <= s <= base * m + 1.0
    ensures s * s <= (base * base + gap) * (m * m)
  {
    var y := base * m;
    SquareMonotone(s, y + 1.0);
    assert (y + 1.0) * (y + 1.0) == y * y + 2.0 * y + 1.0;
    Scale(2.0 * base + 1.0, gap * m, m);
    assert m * (2.0 * base + 1.0) == 2.0 * y + m;
    assert m * (gap * m) == gap * (m * m);
    assert (base * base + gap) * (m * m) == y * y + gap * (m * m);
  }

  function Times(x: real, y: real): real { x * y }

  function Square(x: real): real { Times(x, x) }

  lemma TimesPositive(x: real, y: real)
    requires x > 0.0 && y > 0.0
    ensures Times(x, y) > 0.0
  {}

  lemma SquarePositive(x: real)
    requires x > 0.0
    ensures Square(x) > 0.0
  {
    hide Times;
    TimesPositive(x, x);
  }

  lemma SquareNotNegative(x: real)
    ensures Square(x) >= 0.0
  {}

  lemma CastProduct(x: int, y: int)
    ensures (x * y) as real == x as real * y as real
  {}

  /** A whole number that is large enough for a positive surplus to outweigh a fixed need. */
  lemma LargeEnough(g: real, need: real) returns (t: nat)
    requires g > 0.0
    ensures t > 0 && t as real * g >= need
  {
    if need <= 0.0 {
      t := 1;
    } else {
      var bound := need / g;
      t := bound.Floor + 1;
      assert g * bound == need;
      Scale(bound, t as real, g);
    }
  }

  /** A rational between a range and a longer distance, which is given by its square. */
  lemma RationalBetween(base: real, n: real) returns (s: nat, m: nat)
    requires base > 0.0 && base * base < n
    ensures m > 0 && base * m as real < s as real && s as real * s as real <= n * (m as real * m as real)
  {
    var gap := n - base * base;
    m := LargeEnough(gap, 2.0 * base + 1.0);
    var y := base * m as real;
    Positive(base, m as real);
    s := y.Floor + 1;
    SquareStep(base, gap, m as real, s as real);
  }

  /** How far the offset `(a, b)` reaches along `(p, r)` turned by its own angle, against the
      length of that vector. */
  lemma HalfAngle(a: real, b: real, s: real, m: real, p: real, r: real)
    requires p == m * a + s && r == m * b
    ensures m * (a * (p * p - r * r) + 2.0 * (b * (p * r))) - s * (p * p + r * r)
            == ((a * a + b * b) * (m * m) - s * s) * p
  {}

  function Reach(a: real, b: real, p: real, r: real): real { a * (p * p - r * r) + 2.0 * (b * (p * r)) }

  /** Along some vector of whole length the offset reaches further than the range. */
  lemma LongDirection(a: nat, b: nat, base: real) returns (p: nat, r: nat)
    requires base > 0.0 && base * base < a as real * a as real + b as real * b as real
    ensures p > 0
    ensures Gain(a as real, b as real, base, p as real, r as real) > 0.0
  {
    var ar, br := a as real, b as real;
    var n := ar * ar + br * br;
    var s, m := RationalBetween(base, n);
    p, r := m * a + s, m * b;
    var mr, sr, pr, rr := m as real, s as real, p as real, r as real;
    assert sr > 0.0 by { Positive(base, mr); }
    CastProduct(m, a);
    CastProduct(m, b);
    assert p > 0 by { NotNegative(m, a); }
    hide Reach;
    ReachesFar(ar, br, base, sr, mr, pr, rr);
  }

  lemma ReachesFar(a: real, b: real, base: real, s: real, m: real, p: real, r: real)
    requires p == m * a + s && r == m * b && p > 0.0 && m > 0.0 && base * m < s && s * s <= (a * a + b * b) * (m * m)
    ensures Reach(a, b, p, r) > base * (Square(p) + Square(r))
  {
    ReachesScaled(a, b, s, m, p, r);
    SquarePositive(p);
    SquareNotNegative(r);
    hide Reach, Square;
    Exceeds(base, m, s, Reach(a, b, p, r), Square(p) + Square(r));
  }

  lemma ReachesScaled(a: real, b: real, s: real, m: real, p: real, r: real)
    requires p == m * a + s && r == m * b && p > 0.0 && s * s <= (a * a + b * b) * (m * m)
    ensures m * Reach(a, b, p, r) >= s * (Square(p) + Square(r))
  {
    HalfAngle(a, b, s, m, p, r);
    Scale(0.0, (a * a + b * b) * (m * m) - s * s, p);
  }

  lemma NotNegative(u: int, v: int)
    requires u >= 0 && v >= 0
    ensures u * v >= 0
  {}

  lemma Exceeds(base: real, m: real, s: real, reach: real, length: real)
    requires m > 0.0 && length > 0.0 && base * m < s && m * reach >= s * length
    ensures reach > base * length
  {
    Positive(s - base * m, length);
    assert (s - base * m) * length == s * length - m * (base * length);
    assert m * (reach - base * length) == m * reach - m * (base * length);
    if reach - base * length <= 0.0 { Scale(reach - base * length, 0.0, m); }
  }

  // --- a nebula that holds the offset and meets no disk of the range ------------------------

  lemma FourProducts(u: real, v: real)
    ensures (u + v) * (u + v) == (u - v) * (u - v) + 4.0 * (u * v)
  {
    RangeSquared(u, v);
    RangeSquared(u, -v);
    assert u * -v == -(u * v) && -v * -v == v * v;
  }

  lemma WholeNorm(r: real, t: real, k: real)
    requires k == t * t + 1.0
    ensures k * (k * (r * r) + 2.0 * (t * r) + 1.0) == (k * r + t) * (k * r + t) + 1.0
  {
    RangeSquared(k * r, t);
    assert k * (k * (r * r)) == (k * r) * (k * r);
    assert k * (2.0 * (t * r)) == 2.0 * ((k * r) * t);
  }

  lemma Regroup(k: real, q: real, v: real)
    ensures (k * q) * v == q * (k * v)
  {}

  /** A vector that falls short of a whole length by little: the square misses by `4 p * p`. */
  lemma AlmostWhole(p: real, r: real, t: real, k: real, u: real, v: real, w: real)
    requires k == t * t + 1.0 && u == k * (p * p) && v == k * (r * r) + 2.0 * (t * r) + 1.0 && w == k * r + t
    ensures Square(u - v) + Square(2.0 * (p * w)) + 4.0 * Square(p) == Square(u + v)
  {
    WholeNorm(r, t, k);
    Regroup(k, p * p, v);
    Rearrange(p, w);
    FourProducts(u, v);
    assert k * v == w * w + 1.0;
    assert (p * p) * (w * w + 1.0) == (p * p) * (w * w) + p * p;
  }

  /** The surplus of the vector in the direction of the offset. */
  lemma Surplus(a: real, base: real, e: real, r: real, t: real, g: real)
    requires a >= 0.0 && base > 0.0 && r >= 0.0 && t >= 1.0 && g > 0.0 && e >= 0.0
    requires t * g >= (a + base) * (2.0 * r + 1.0) + 2.0 * e
    ensures (t * t + 1.0) * g - (a + base) * (2.0 * (t * r) + 1.0) > 2.0 * e
  {
    var c, h := a + base, (a + base) * (2.0 * r + 1.0) + 2.0 * e;
    Scale(h, t * g, t);
    assert t * (t * g) == (t * t) * g;
    assert t * h == t * (c * (2.0 * r + 1.0)) + t * (2.0 * e);
    Scale(1.0, t, c);
    assert t * (c * (2.0 * r + 1.0)) == c * (2.0 * (t * r)) + c * t;
    assert c * (2.0 * (t * r) + 1.0) == c * (2.0 * (t * r)) + c;
    Scale(1.0, t, 2.0 * e);
  }

  /** The vector `(u - v, 2 * p * w)` of nearly whole length `u + v`. */
  predicate IsVector(p: real, r: real, t: real, k: real, u: real, v: real, w: real) {
    k == t * t + 1.0 && u == k * (p * p) && v == k * (r * r) + 2.0 * (t * r) + 1.0 && w == k * r + t
  }

  /** How much further than the range the offset reaches along a direction, and what a multiple
      of that has to outweigh. */
  function Gain(a: real, b: real, base: real, p: real, r: real): real {
    Reach(a, b, p, r) - base * (Square(p) + Square(r))
  }

  function Fixed(a: real, base: real, p: real, r: real): real { (a + base) * (2.0 * r + 1.0) + 2.0 * Square(p) }

  /** Moved by such a vector, the offset is further from the origin than range and radius. */
  lemma Beyond(a: real, b: real, base: real, p: real, r: real, t: real, k: real, u: real, v: real, w: real)
    requires a >= 0.0 && b >= 0.0 && base > 0.0 && Square(base) < Square(a) + Square(b) && p > 0.0 && r >= 0.0
             && t >= 1.0
    requires IsVector(p, r, t, k, u, v, w)
    requires Gain(a, b, base, p, r) > 0.0 && t * Gain(a, b, base, p, r) >= Fixed(a, base, p, r)
    ensures IsNebulaBeyond(a, b, base, u - v, 2.0 * (p * w), u + v)
  {
    AlmostWhole(p, r, t, k, u, v, w);
    SquarePositive(p);
    hide Square, Gain, Fixed, IsVector;
    Surpasses(a, b, base, p, r, t, k, u, v, w, Gain(a, b, base, p, r));
    Conclude(a, b, base, u - v, 2.0 * (p * w), u + v, Square(p));
  }

  /** How far the offset reaches along the vector, against the range times its length. */
  function Along(a: real, b: real, base: real, x: real, y: real, radius: real): real { a * x + b * y - base * radius }

  lemma Surpasses(a: real, b: real, base: real, p: real, r: real, t: real, k: real, u: real, v: real, w: real, g: real)
    requires a >= 0.0 && b >= 0.0 && base > 0.0 && p > 0.0 && r >= 0.0 && t >= 1.0 && IsVector(p, r, t, k, u, v, w)
    requires g == Gain(a, b, base, p, r) && g > 0.0 && t * g >= Fixed(a, base, p, r)
    ensures Along(a, b, base, u - v, 2.0 * (p * w), u + v) > 2.0 * Square(p)
  {
    SquareNotNegative(p);
    Surplus(a, base, Square(p), r, t, g);
    AlongOffset(a, b, base, p, r, t, k, u, v, w, g);
    NotNegativeReal(b, p, t);
    hide Gain, Square, Along;
  }

  lemma NotNegativeReal(b: real, p: real, t: real)
    requires b >= 0.0 && p >= 0.0 && t >= 0.0
    ensures b * (p * t) >= 0.0
  {}

  /** The vector is shorter than the radius, and the offset moved by it is too far from the
      origin for a disk of the range. */
  predicate IsNebulaBeyond(a: real, b: real, base: real, x: real, y: real, radius: real) {
    Square(x) + Square(y) < Square(radius) && Square(a + x) + Square(b + y) > Square(base + radius)
  }

  lemma Conclude(a: real, b: real, base: real, x: real, y: real, radius: real, e: real)
    requires Square(base) < Square(a) + Square(b) && e > 0.0
    requires Along(a, b, base, x, y, radius) > 2.0 * e && Square(x) + Square(y) + 4.0 * e == Square(radius)
    ensures IsNebulaBeyond(a, b, base, x, y, radius)
  {
    SquareOfSum(a, x);
    SquareOfSum(b, y);
    SquareOfSum(base, radius);
    hide Square;
  }

  lemma SquareOfSum(x: real, y: real)
    ensures Square(x + y) == Square(x) + Square(y) + 2.0 * (x * y)
  {}

  lemma AlongOffset(a: real, b: real, base: real, p: real, r: real, t: real, k: real, u: real, v: real, w: real,
          g: real)
    requires u == k * (p * p) && v == k * (r * r) + 2.0 * (t * r) + 1.0 && w == k * r + t
    requires g == Gain(a, b, base, p, r)
    ensures Along(a, b, base, u - v, 2.0 * (p * w), u + v)
         == k * g - (a + base) * (2.0 * (t * r) + 1.0) + 2.0 * (b * (p * t))
  {}

  /** For every offset longer than a range there is a nebula around it, and strictly so, that
      does not meet the disk of the range. */
  lemma FarNebula(a: nat, b: nat, base: real) returns (x: int, y: int, radius: int)
    requires base > 0.0 && Square(base) < Square(a as real) + Square(b as real)
    ensures radius > 0 && IsNebulaBeyond(a as real, b as real, base, x as real, y as real, radius as real)
  {
    var p, r := LongDirection(a, b, base);
    hide Reach, IsNebulaBeyond, Square, Gain, Fixed, IsVector;
    var ar, br, pr, rr := a as real, b as real, p as real, r as real;
    var t := LargeEnough(Gain(ar, br, base, pr, rr), Fixed(ar, base, pr, rr));
    var k, u, v, w: real;
    x, y, radius, k, u, v, w := Vector(p, r, t);
    Beyond(ar, br, base, pr, rr, t as real, k, u, v, w);
  }

  /** The vector and the radius are whole. */
  lemma Vector(p: nat, r: nat, t: nat) returns (x: int, y: int, radius: int, kr: real, ur: real, vr: real, wr: real)
    requires p > 0
    ensures IsVector(p as real, r as real, t as real, kr, ur, vr, wr)
    ensures x as real == ur - vr && y as real == 2.0 * (p as real * wr) && radius as real == ur + vr && radius > 0
  {
    var k := t * t + 1;
    var u, v, w := k * (p * p), k * (r * r) + 2 * (t * r) + 1, k * r + t;
    kr, ur, vr, wr := k as real, u as real, v as real, w as real;
    x, y, radius := u - v, 2 * (p * w), u + v;
    CastProduct(t, t);
    CastProduct(p, p);
    CastProduct(k, p * p);
    CastProduct(r, r);
    CastProduct(k, r * r);
    CastProduct(t, r);
    CastProduct(k, r);
    CastProduct(p, w);
    NotNegative(p, p);
    NotNegative(r, r);
    NotNegative(t, r);
    NotNegative(k, p * p);
    NotNegative(k, r * r);
  }

  // --- exactly the hooks that are served ----------------------------------------------------

  function Sign(d: int): int { if d < 0 then -1 else 1 }

  /** A hook that brings a cell into reach in fog which the base range does not reach is not
      served: fog outside every disk has no patch, so the cell, strictly inside that fog, is read
      as uncovered. */
  lemma LongerHookDisagrees(hook: (real, int) -> real, base: real, d: int, dx: int, dy: int)
    returns (fog: Fog, origins: seq<Origin>, nebulas: seq<Nebula>, h: Hybrid)
    requires base > 0.0 && d > 0 && Near(dx, dy, hook(base, d)) && !Near(dx, dy, base)
    ensures forall o :: o in origins ==> o.baseRange == base
    ensures forall n :: n in nebulas ==> Within(dx - n.x, dy - n.y, n.radius)
    ensures IsHybrid(fog, Some(hook), origins, nebulas, h) && !AgreesAt(fog, Some(hook), origins, nebulas, h, dx, dy)
  {
    fog := Fog((n, x, y) => d, density => None);
    var n := NebulaBeyond(base, dx, dy);
    origins, nebulas := [Origin(0, 0, base, false)], [n];
    h := Hybrid(Disks(origins), []);
    UnpatchedFog(fog, hook, origins[0], n, h, d, dx, dy);
  }

  lemma NearSquares(dx: int, dy: int, r: real)
    ensures Near(dx, dy, r) <==> r >= 0.0 && Square(dx as real) + Square(dy as real) <= Square(r)
  {
    CastProduct(dx, dx);
    CastProduct(dy, dy);
  }

  lemma MirroredSquares(d: int, x: int)
    ensures var a := Sign(d) * d; a >= 0 && Square(a as real) == Square(d as real)
    ensures Square((Sign(d) * x) as real) == Square(x as real)
    ensures var a := Sign(d) * d; Square((d + Sign(d) * x) as real) == Square(a as real + x as real)
    ensures Square((-d) as real) == Square(d as real)
  {}

  lemma NebulaBeyond(base: real, dx: int, dy: int) returns (n: Nebula)
    requires base > 0.0 && !Near(dx, dy, base)
    ensures n.Usable() && !Near(-n.x, -n.y, base + n.radius as real)
    ensures Within(dx - n.x, dy - n.y, n.radius)
  {
    hide Square, Near, Sign, IsNebulaBeyond, Within;
    NearSquares(dx, dy, base);
    MirroredSquares(dx, 0);
    MirroredSquares(dy, 0);
    var a, b := Sign(dx) * dx, Sign(dy) * dy;
    var x, y, radius := FarNebula(a, b, base);
    n := Nebula(0, dx + Sign(dx) * x, dy + Sign(dy) * y, radius, 0);
    PlacedBeyond(base, dx, dy, x, y, radius, n);
  }

  /** Strictly inside a disk of whole radius. */
  predicate Within(dx: int, dy: int, radius: int) { dx * dx + dy * dy < radius * radius }

  lemma WithinSquares(dx: int, dy: int, radius: int)
    ensures Within(dx, dy, radius) <==> Square(dx as real) + Square(dy as real) < Square(radius as real)
  {
    CastProduct(dx, dx);
    CastProduct(dy, dy);
    CastProduct(radius, radius);
  }

  lemma PlacedBeyond(base: real, dx: int, dy: int, x: int, y: int, radius: int, n: Nebula)
    requires base > 0.0 && radius > 0 && n == Nebula(0, dx + Sign(dx) * x, dy + Sign(dy) * y, radius, 0)
    requires IsNebulaBeyond((Sign(dx) * dx) as real, (Sign(dy) * dy) as real, base, x as real, y as real,
             radius as real)
    ensures !Near(-n.x, -n.y, base + radius as real) && Within(dx - n.x, dy - n.y, radius)
  {
    MirroredSquares(dx, x);
    MirroredSquares(dy, y);
    MirroredSquares(n.x, 0);
    MirroredSquares(n.y, 0);
    MirroredSquares(Sign(dx) * x, 0);
    MirroredSquares(Sign(dy) * y, 0);
    hide Square, Near, Within, Sign;
    NearSquares(-n.x, -n.y, base + radius as real);
    assert dx - n.x == -(Sign(dx) * x) && dy - n.y == -(Sign(dy) * y);
    WithinSquares(dx - n.x, dy - n.y, radius);
  }

  lemma WithinHolds(n: Nebula, x: int, y: int)
    requires n.Usable() && Within(x - n.x, y - n.y, n.radius)
    ensures Holds(n, x, y)
  {
    CastProduct(n.radius, n.radius);
  }

  /** One disk, and one nebula that it does not meet but that holds a cell the hook reaches. */
  lemma UnpatchedFog(fog: Fog, hook: (real, int) -> real, o: Origin, n: Nebula, h: Hybrid, d: int, x: int, y: int)
    requires fog == Fog((n, x, y) => d, density => None) && d > 0 && h == Hybrid(Disks([o]), [])
    requires o.x == 0 && o.y == 0 && o.baseRange > 0.0 && Near(x, y, hook(o.baseRange, d)) && !Near(x, y, o.baseRange)
    requires n.Usable() && !Near(-n.x, -n.y, o.baseRange + n.radius as real) && Within(x - n.x, y - n.y, n.radius)
    ensures IsHybrid(fog, Some(hook), [o], [n], h) && !AgreesAt(fog, Some(hook), [o], [n], h, x, y)
  {
    WithinHolds(n, x, y);
    hide Near, Within, Holds;
    assert Active([o]) == [o] by { assert [o][..0] == []; }
    assert [n][..0] == [];
    assert !DiskMeets(o, n) by { assert o.x - n.x == -n.x && o.y - n.y == -n.y; }
    assert !Touched([o], n);
    assert TouchedBoxes([o], [n]) == [];
    assert Density(fog, [n], x, y) == d;
    assert Reaches(fog, Some(hook), o, d, x, y) by { assert x - o.x == x && y - o.y == y; }
    NothingToCover();
    assert AllBounds([]) == [];
    DisksAreIdealReach(fog, Some(hook), [o], [n], h, x, y);
  }

  /** In fog the hook brings no cell into reach that the base range does not reach. */
  ghost predicate GainsNoCell(hook: (real, int) -> real) {
    forall base, d: int, dx: int, dy: int {:trigger Near(dx, dy, hook(base, d))} ::
      base > 0.0 && d > 0 && Near(dx, dy, hook(base, d)) ==> Near(dx, dy, base)
  }

  /** Whatever the fog, the nebulae and the origins, every cell reads as defined. */
  ghost predicate Served(hook: (real, int) -> real) {
    forall fog, origins: seq<Origin>, nebulas, h, x,
        y {:trigger AgreesAt(fog, Some(hook), origins, nebulas, h, x, y)} ::
      IsHybrid(fog, Some(hook), origins, nebulas, h) ==> AgreesAt(fog, Some(hook), origins, nebulas, h, x, y)
  }

  /** Exactly the hooks that gain no cell agree with the definition on all maps. */
  lemma HookIsServedIff(hook: (real, int) -> real)
    ensures GainsNoCell(hook) <==> Served(hook)
  {
    hide IsHybrid, AgreesAt, Near;
    if GainsNoCell(hook) {
      forall fog, origins: seq<Origin>, nebulas, h, x, y | IsHybrid(fog, Some(hook), origins, nebulas, h)
        ensures AgreesAt(fog, Some(hook), origins, nebulas, h, x, y)
      {
        HybridAgrees(fog, Some(hook), origins, nebulas, h, x, y);
      }
    } else {
      var base, d: int, dx: int, dy: int :| base > 0.0 && d > 0 && Near(dx, dy, hook(base, d)) && !Near(dx, dy, base);
      var fog, origins, nebulas, h := LongerHookDisagrees(hook, base, d, dx, dy);
      assert !AgreesAt(fog, Some(hook), origins, nebulas, h, dx, dy);
    }
  }

  /** A range that is never longer gains no cell; a caller may check this alone. */
  lemma ShorterGainsNothing(hook: (real, int) -> real)
    requires forall base, d: int {:trigger hook(base, d)} :: base > 0.0 && d > 0 ==> hook(base, d) <= base
    ensures GainsNoCell(hook)
  {
    forall base, d: int, dx: int, dy: int | base > 0.0 && d > 0 && Near(dx, dy, hook(base, d))
        ensures Near(dx, dy, base) {
      NearMonotone(dx, dy, hook(base, d), base);
    }
  }
}
