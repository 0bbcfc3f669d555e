/** When a map cell is covered: ideal scan disks, cut back inside nebulae. */
module CoverageCells {
  import opened Prelude

  datatype Origin = Origin(x: int, y: int, baseRange: real, hasNebulaScanner: bool)
  datatype Nebula = Nebula(id: int, x: int, y: int, radius: int, intensity: int) {
    predicate Usable() { radius > 0 && id >= 0 }
  }

  /** What the host's fog formulas say, left open: how much one nebula whose disk holds a cell
      adds to its density there, and the visibility at a positive density. */
  datatype Fog = Fog(addedBy: (Nebula, int, int) -> int, visibility: int -> Option<real>)

  /** A caller's own effective range from base range and density. */
  type RangeHook = Option<(real, int) -> real>

  const SCANNER_FLOOR := 100.0

  /** The offset is no longer than `r`, with both sides squared. */
  predicate Near(dx: int, dy: int, r: real) {
    r >= 0.0 && (dx * dx + dy * dy) as real <= r * r
  }

  predicate Holds(n: Nebula, x: int, y: int) {
    n.Usable() && Near(x - n.x, y - n.y, n.radius as real)
  }

  function Density(fog: Fog, nebulas: seq<Nebula>, x: int, y: int): int {
    if nebulas == [] then 0
    else
      var last := nebulas[|nebulas| - 1];
      Density(fog, nebulas[..|nebulas| - 1], x, y) + (if Holds(last, x, y) then fog.addedBy(last, x, y) else 0)
  }

  function Min(a: real, b: real): real { if b < a then b else a }
  function Max(a: real, b: real): real { if b > a then b else a }

  function DefaultRange(fog: Fog, base: real, density: int): real {
    if density <= 0 || fog.visibility(density).None? then base else Min(base, fog.visibility(density).value)
  }

  function ScannerRange(fog: Fog, base: real, density: int): real {
    if density <= 0 then base else Max(DefaultRange(fog, base, density), Min(base, SCANNER_FLOOR))
  }

  function EffectiveRange(fog: Fog, hook: RangeHook, o: Origin, density: int): real {
    if hook.Some? then hook.value(o.baseRange, density)
    else if o.hasNebulaScanner then ScannerRange(fog, o.baseRange, density)
    else DefaultRange(fog, o.baseRange, density)
  }

  predicate Reaches(fog: Fog, hook: RangeHook, o: Origin, density: int, x: int, y: int) {
    && o.baseRange > 0.0
    && Near(x - o.x, y - o.y, if density <= 0 then o.baseRange else EffectiveRange(fog, hook, o, density))
  }

  /** The definition every other form of coverage is measured against. */
  predicate CellCovered(fog: Fog, hook: RangeHook, origins: seq<Origin>, nebulas: seq<Nebula>, x: int, y: int) {
    exists o :: o in origins && Reaches(fog, hook, o, Density(fog, nebulas, x, y), x, y)
  }

  // --- what fog does to coverage ------------------------------------------------------------

  /** The cell is no farther from the origin than `r`. */
  predicate Within(o: Origin, x: int, y: int, r: real) {
    r >= 0.0 && ((x - o.x) * (x - o.x) + (y - o.y) * (y - o.y)) as real <= r * r
  }

  /** The origin covers the cell by the default ranges.  Outside fog its base range alone decides.
      In fog the cell has to be within the visibility as well, or within 100 for a scanner. */
  predicate SeenFrom(fog: Fog, o: Origin, density: int, x: int, y: int) {
    && o.baseRange > 0.0 && Within(o, x, y, o.baseRange)
    && (density > 0 && fog.visibility(density).Some? ==>
          || Within(o, x, y, fog.visibility(density).value)
          || (o.hasNebulaScanner && Within(o, x, y, 100.0)))
  }

  /** With the default ranges a cell is covered exactly if one of the origins sees it. */
  lemma CoveredIffSeen(fog: Fog, origins: seq<Origin>, nebulas: seq<Nebula>, x: int, y: int)
    ensures var density := Density(fog, nebulas, x, y);
            CellCovered(fog, None, origins, nebulas, x, y) <==> exists o ::
                o in origins && SeenFrom(fog, o, density, x, y)
  {
    var density := Density(fog, nebulas, x, y);
    forall o ensures Reaches(fog, None, o, density, x, y) <==> SeenFrom(fog, o, density, x, y) {
      SeesIffReaches(fog, o, density, x, y);
    }
    hide Reaches, SeenFrom, Density;
  }

  /** What one origin covers: outside fog, in fog of visibility `v`, and with a scanner there. */
  lemma OneOriginCovers(fog: Fog, o: Origin, nebulas: seq<Nebula>, x: int, y: int)
    requires o.baseRange > 0.0
    ensures var density, covered := Density(fog, nebulas, x, y), CellCovered(fog, None, [o], nebulas, x, y);
            if density <= 0 || fog.visibility(density).None? then covered <==> Within(o, x, y, o.baseRange)
            else
              var v := fog.visibility(density).value;
              if o.hasNebulaScanner then
                covered <==> Within(o, x, y, o.baseRange) && (Within(o, x, y, v) || Within(o, x, y, 100.0))
              else covered <==> Within(o, x, y, o.baseRange) && Within(o, x, y, v)
  {
    CoveredIffSeen(fog, [o], nebulas, x, y);
    assert o in [o];
    hide CellCovered, Density, Within;
  }

  /** A caller's hook decides in fog, and only there. */
  lemma HookDecidesInFog(fog: Fog, hook: RangeHook, o: Origin, nebulas: seq<Nebula>, x: int, y: int)
    requires hook.Some? && o.baseRange > 0.0
    ensures var density := Density(fog, nebulas, x, y);
            CellCovered(fog, hook, [o], nebulas, x, y) <==>
              Within(o, x, y, if density > 0 then hook.value(o.baseRange, density) else o.baseRange)
  {
    assert o in [o];
    NearIsWithin(o, x, y);
    hide Density, Near, Within;
  }

  lemma NearIsWithin(o: Origin, x: int, y: int)
    ensures forall r :: Near(x - o.x, y - o.y, r) <==> Within(o, x, y, r)
  {}

  /** Several origins cover what each of them covers. */
  lemma OriginsCoverTheUnion(fog: Fog, hook: RangeHook, origins: seq<Origin>, nebulas: seq<Nebula>, x: int, y: int)
    ensures CellCovered(fog, hook, origins, nebulas, x, y) <==>
            exists o :: o in origins && CellCovered(fog, hook, [o], nebulas, x, y)
  {
    var density := Density(fog, nebulas, x, y);
    forall o ensures CellCovered(fog, hook, [o], nebulas, x, y) <==> Reaches(fog, hook, o, density, x, y) {
      assert o in [o];
    }
    hide Reaches, Density;
  }

  lemma SeesIffReaches(fog: Fog, o: Origin, density: int, x: int, y: int)
    ensures Reaches(fog, None, o, density, x, y) <==> SeenFrom(fog, o, density, x, y)
  {
    var dx, dy, base := x - o.x, y - o.y, o.baseRange;
    if base > 0.0 && density > 0 && fog.visibility(density).Some? {
      var v := fog.visibility(density).value;
      NearBoth(dx, dy, base, v);
      NearBoth(dx, dy, base, 100.0);
      NearEither(dx, dy, Min(base, v), Min(base, 100.0));
    } else if base > 0.0 && density > 0 {
      NearEither(dx, dy, base, Min(base, 100.0));
      NearBoth(dx, dy, base, 100.0);
    }
    NearIsWithin(o, x, y);
    hide Near, Within;
  }

  lemma NearBoth(dx: int, dy: int, r: real, s: real)
    ensures Near(dx, dy, Min(r, s)) <==> Near(dx, dy, r) && Near(dx, dy, s)
  {
    if Near(dx, dy, Min(r, s)) {
      NearMonotone(dx, dy, Min(r, s), r);
      NearMonotone(dx, dy, Min(r, s), s);
    }
  }

  lemma NearEither(dx: int, dy: int, r: real, s: real)
    ensures Near(dx, dy, Max(r, s)) <==> Near(dx, dy, r) || Near(dx, dy, s)
  {
    if Near(dx, dy, r) { NearMonotone(dx, dy, r, Max(r, s)); }
    if Near(dx, dy, s) { NearMonotone(dx, dy, s, Max(r, s)); }
  }

  /** The density of a cell: each nebula with a radius and an id adds its own share where its disk
      holds the cell, whatever the others do and in whatever order they come. */
  lemma {:induction false} DensityAdds(fog: Fog, before: seq<Nebula>, after: seq<Nebula>, x: int, y: int)
    ensures Density(fog, before + after, x, y) == Density(fog, before, x, y) + Density(fog, after, x, y)
    decreases |after|
  {
    if after == [] {
      assert before + after == before;
    } else {
      var front, last := after[..|after| - 1], after[|after| - 1];
      DensityAdds(fog, before, front, x, y);
      assert (before + after)[..|before + after| - 1] == before + front;
    }
  }

  lemma DensityOfOne(fog: Fog, n: Nebula, x: int, y: int)
    ensures Density(fog, [n], x, y) ==
            if n.radius > 0 && n.id >= 0 && (x - n.x) * (x - n.x) + (y - n.y) * (y - n.y) <= n.radius * n.radius
            then fog.addedBy(n, x, y) else 0
  {
    assert (n.radius as real) * (n.radius as real) == (n.radius * n.radius) as real;
    assert Density(fog, [n][..0], x, y) == 0;
  }

  method NebulaDensityAt(fog: Fog, nebulas: seq<Nebula>, x: int, y: int) returns (total: int)
    ensures total == Density(fog, nebulas, x, y)
  {
    total := 0;
    var i := 0;
    while i < |nebulas|
      invariant 0 <= i <= |nebulas| && total == Density(fog, nebulas[..i], x, y)
    {
      assert nebulas[..i + 1][..i] == nebulas[..i];
      if nebulas[i].Usable() && Near(x - nebulas[i].x, y - nebulas[i].y, nebulas[i].radius as real) {
        total := total + fog.addedBy(nebulas[i], x, y);
      }
      i := i + 1;
    }
    assert nebulas[..|nebulas|] == nebulas;
  }

  method CoverCell(fog: Fog, hook: RangeHook, origins: seq<Origin>, nebulas: seq<Nebula>, x: int, y: int)
          returns (covered: bool)
    ensures covered == CellCovered(fog, hook, origins, nebulas, x, y)
    ensures hook.None? ==>
              covered == exists o :: o in origins && SeenFrom(fog, o, Density(fog, nebulas, x, y), x, y)
  {
    if hook.None? { CoveredIffSeen(fog, origins, nebulas, x, y); }
    hide SeenFrom;
    var density := NebulaDensityAt(fog, nebulas, x, y);
    var i := 0;
    while i < |origins|
      invariant 0 <= i <= |origins|
      invariant forall k :: 0 <= k < i ==> !Reaches(fog, hook, origins[k], density, x, y)
    {
      var o := origins[i];
      if o.baseRange > 0.0 {
        var reach := if density <= 0 then o.baseRange else EffectiveRange(fog, hook, o, density);
        if Near(x - o.x, y - o.y, reach) {
          assert o in origins && Reaches(fog, hook, o, density, x, y);
          return true;
        }
      }
      i := i + 1;
    }
    return false;
  }

  // --- distances ----------------------------------------------------------------------------

  lemma Scale(a: real, b: real, c: real)
    requires a <= b && 0.0 <= c
    ensures c * a <= c * b
  {
    assert c * (b - a) >= 0.0;
  }

  lemma Positive(u: real, v: real)
    requires u > 0.0 && v > 0.0
    ensures u * v > 0.0
  {}

  lemma SquareMonotone(a: real, b: real)
    requires 0.0 <= a && 0.0 <= b
    ensures a * a <= b * b <==> a <= b
  {
    if a <= b {
      Scale(a, b, a);
      Scale(a, b, b);
    } else {
      Positive(a - b, a + b);
      assert a * a - b * b == (a - b) * (a + b);
    }
  }

  /** What lies within a smaller range lies within a larger one. */
  lemma NearMonotone(dx: int, dy: int, r: real, s: real)
    requires Near(dx, dy, r) && r <= s
    ensures Near(dx, dy, s)
  {
    SquareMonotone(r, s);
  }

  /** Cauchy-Schwarz, with bounds for the two lengths. */
  lemma DotBound(a: real, b: real, c: real, d: real, r: real, s: real)
    requires r >= 0.0 && s >= 0.0 && a * a + b * b <= r * r && c * c + d * d <= s * s
    ensures a * c + b * d <= r * s
  {
    var dot, turn := a * c + b * d, a * d - b * c;
    var u, v := a * a + b * b, c * c + d * d;
    assert dot * dot + turn * turn == u * v by { LagrangeIdentity(a, b, c, d); }
    assert turn * turn >= 0.0;
    Products(u, v, r * r, s * s);
    Rearrange(r, s);
    if dot >= 0.0 {
      assert r * s >= 0.0;
      SquareMonotone(dot, r * s);
    } else {
      assert r * s >= 0.0;
    }
  }

  lemma LagrangeIdentity(a: real, b: real, c: real, d: real)
    ensures (a * c + b * d) * (a * c + b * d) + (a * d - b * c) * (a * d - b * c) == (a * a + b * b) * (c * c + d * d)
  {}

  lemma Products(u: real, v: real, p: real, q: real)
    requires 0.0 <= u <= p && 0.0 <= v <= q
    ensures u * v <= p * q
  {
    assert u * v <= p * v;
    assert p * v <= p * q;
  }

  lemma Rearrange(r: real, s: real)
    ensures (r * r) * (s * s) == (r * s) * (r * s)
  {}

  /** `Near`, with the offset as reals. */
  predicate Length(a: real, b: real, r: real) { r >= 0.0 && a * a + b * b <= r * r }

  lemma NearIsLength(dx: int, dy: int, r: real)
    ensures Near(dx, dy, r) <==> Length(dx as real, dy as real, r)
  {
    assert (dx * dx) as real == (dx as real) * (dx as real);
    assert (dy * dy) as real == (dy as real) * (dy as real);
  }

  lemma LengthTriangle(a: real, b: real, c: real, d: real, r: real, s: real)
    requires Length(a, b, r) && Length(c, d, s)
    ensures Length(a + c, b + d, r + s)
  {
    DotBound(a, b, c, d, r, s);
    SumSquared(a, b, c, d);
    RangeSquared(r, s);
  }

  /** The triangle inequality on squared lengths. */
  lemma NearTriangle(ax: int, ay: int, cx: int, cy: int, r: real, s: real)
    requires Near(ax, ay, r) && Near(cx, cy, s)
    ensures Near(ax + cx, ay + cy, r + s)
  {
    NearIsLength(ax, ay, r);
    NearIsLength(cx, cy, s);
    NearIsLength(ax + cx, ay + cy, r + s);
    hide Near, Length;
    LengthTriangle(ax as real, ay as real, cx as real, cy as real, r, s);
  }

  lemma SumSquared(a: real, b: real, c: real, d: real)
    ensures (a + c) * (a + c) + (b + d) * (b + d) == (a * a + b * b) + (c * c + d * d) + 2.0 * (a * c + b * d)
  {}

  lemma RangeSquared(r: real, s: real)
    ensures (r + s) * (r + s) == r * r + s * s + 2.0 * (r * s)
  {}

  lemma NearNegated(dx: int, dy: int, r: real)
    ensures Near(dx, dy, r) <==> Near(-dx, -dy, r)
  {}

  /** An offset within a whole range is within it along each axis. */
  lemma NearInBox(dx: int, dy: int, r: int)
    requires Near(dx, dy, r as real)
    ensures -r <= dx <= r && -r <= dy <= r
  {
    assert (dx * dx + dy * dy) as real <= (r * r) as real;
    LengthBound(dx, r);
    LengthBound(dy, r);
  }

  lemma LengthBound(d: int, r: int)
    requires 0 <= r && d * d <= r * r
    ensures -r <= d <= r
  {
    if d > r { SquareGrows(r, d); }
    if d < -r { SquareGrows(r, -d); }
  }

  lemma SquareGrows(a: int, b: int)
    requires 0 <= a < b
    ensures a * a < b * b
  {
    assert b * b - a * a == (b - a) * (b + a);
  }

  /** Fog exists only inside the disk of some usable nebula. */
  lemma {:induction false} FogHasANebula(fog: Fog, nebulas: seq<Nebula>, x: int, y: int)
    requires Density(fog, nebulas, x, y) > 0
    ensures exists n :: n in nebulas && Holds(n, x, y)
  {
    if nebulas != [] {
      var front, last := nebulas[..|nebulas| - 1], nebulas[|nebulas| - 1];
      if !Holds(last, x, y) {
        FogHasANebula(fog, front, x, y);
        var n :| n in front && Holds(n, x, y);
      }
    }
  }

  /** Fog never lengthens the default range, nor the scanner's. */
  lemma FogOnlyCutsBack(fog: Fog, o: Origin, density: int)
    ensures EffectiveRange(fog, None, o, density) <= o.baseRange
  {}
}
