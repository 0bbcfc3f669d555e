/** Ideal disks plus nebula patches, and that reading them agrees with the cell definition. */
module HybridCoverage {
  import opened CoverageCells
  import opened CoverageBoxes
  import opened CoveragePatches

  datatype Disk = Disk(x: int, y: int, radius: real)
  datatype Hybrid = Hybrid(disks: seq<Disk>, patches: seq<Patch>)

  function Active(origins: seq<Origin>): seq<Origin> {
    if origins == [] then []
    else Active(origins[..|origins| - 1]) + (if origins[|origins| - 1].baseRange > 0.0 then [origins[|origins| - 1]]
        else [])
  }

  function Disks(origins: seq<Origin>): seq<Disk> {
    seq(|origins|, i requires 0 <= i < |origins| => Disk(origins[i].x, origins[i].y, origins[i].baseRange))
  }

  predicate DiskMeets(o: Origin, n: Nebula) {
    n.Usable() && o.baseRange > 0.0 && Near(o.x - n.x, o.y - n.y, o.baseRange + n.radius as real)
  }

  predicate Touched(origins: seq<Origin>, n: Nebula) { exists o :: o in origins && DiskMeets(o, n) }

  function NebulaBox(n: Nebula): Box { Box(n.x - n.radius, n.y - n.radius, n.x + n.radius, n.y + n.radius) }

  /** The boxes of the nebulae that some disk meets. */
  function TouchedBoxes(origins: seq<Origin>, nebulas: seq<Nebula>): seq<Box> {
    if nebulas == [] then []
    else
      var last := nebulas[|nebulas| - 1];
      TouchedBoxes(origins, nebulas[..|nebulas| - 1]) + (if Touched(origins, last) then [NebulaBox(last)] else [])
  }

  lemma {:induction false} ActiveMembers(origins: seq<Origin>, o: Origin)
    ensures o in Active(origins) <==> o in origins && o.baseRange > 0.0
  {
    if origins != [] {
      var front := origins[..|origins| - 1];
      ActiveMembers(front, o);
      assert origins == front + [origins[|origins| - 1]];
    }
  }

  lemma {:induction false} TouchedBoxesMembers(origins: seq<Origin>, nebulas: seq<Nebula>, b: Box)
    ensures b in TouchedBoxes(origins, nebulas) <==> exists n ::
            n in nebulas && Touched(origins, n) && b == NebulaBox(n)
  {
    if nebulas != [] {
      var front, last := nebulas[..|nebulas| - 1], nebulas[|nebulas| - 1];
      TouchedBoxesMembers(origins, front, b);
      hide Touched;
      assert nebulas == front + [last];
      if b in TouchedBoxes(origins, front) {
        var n :| n in front && Touched(origins, n) && b == NebulaBox(n);
        assert n in nebulas;
      }
      if exists n :: n in nebulas && Touched(origins, n) && b == NebulaBox(n) {
        var n :| n in nebulas && Touched(origins, n) && b == NebulaBox(n);
        assert n in front || n == last;
      }
    }
  }

  function AllBounds(patches: seq<Patch>): seq<Box> {
    seq(|patches|, i requires 0 <= i < |patches| => patches[i].Bounds())
  }

  ghost predicate AllShow(patches: seq<Patch>, covered: (int, int) -> bool) {
    forall p {:trigger Shows(p, covered)} :: p in patches ==> Shows(p, covered)
  }

  /** What the builder makes: a disk an active origin, and correct patches over the least
      separate boxes around the touched nebulae. */
  ghost predicate IsHybrid(fog: Fog, hook: RangeHook, origins: seq<Origin>, nebulas: seq<Nebula>, h: Hybrid) {
    && h.disks == Disks(Active(origins))
    && LeastCover(AllBounds(h.patches), TouchedBoxes(Active(origins), nebulas))
    && AllShow(h.patches, Definition(fog, hook, Active(origins), nebulas))
  }

  // --- building -----------------------------------------------------------------------------

  method MergedPatchBoxes(origins: seq<Origin>, nebulas: seq<Nebula>) returns (boxes: seq<Box>)
    ensures LeastCover(boxes, TouchedBoxes(origins, nebulas))
    ensures forall b :: b in boxes ==> b.Valid()
  {
    var touched: seq<Box> := [];
    var i := 0;
    while i < |nebulas|
      invariant 0 <= i <= |nebulas| && touched == TouchedBoxes(origins, nebulas[..i])
    {
      assert nebulas[..i + 1][..i] == nebulas[..i];
      var meets := MeetsSomeDisk(origins, nebulas[i]);
      if meets { touched := touched + [NebulaBox(nebulas[i])]; }
      i := i + 1;
    }
    assert nebulas[..|nebulas|] == nebulas;
    forall b | b in touched ensures b.Valid() { TouchedBoxesMembers(origins, nebulas, b); }
    if touched == [] {
      return [];
    }
    boxes := MergeUntilDisjoint(touched);
  }

  method MeetsSomeDisk(origins: seq<Origin>, n: Nebula) returns (meets: bool)
    ensures meets == Touched(origins, n)
  {
    var i := 0;
    while i < |origins|
      invariant 0 <= i <= |origins| && forall k :: 0 <= k < i ==> !DiskMeets(origins[k], n)
    {
      if DiskMeets(origins[i], n) {
        assert origins[i] in origins;
        return true;
      }
      i := i + 1;
    }
    return false;
  }

  lemma {:induction false} NoOriginsNoBoxes(nebulas: seq<Nebula>)
    ensures TouchedBoxes([], nebulas) == []
  {
    if nebulas != [] { NoOriginsNoBoxes(nebulas[..|nebulas| - 1]); }
  }

  lemma NothingToCover()
    ensures LeastCover([], [])
  {}

  method BuildHybridCoverage(fog: Fog, hook: RangeHook, origins: seq<Origin>, nebulas: seq<Nebula>) returns (h: Hybrid)
    ensures IsHybrid(fog, hook, origins, nebulas, h)
  {
    hide LeastCover, Shows, Definition;
    var active := ActiveOrigins(origins);
    if active == [] {
      NoOriginsNoBoxes(nebulas);
      NothingToCover();
      assert AllBounds([]) == [];
      return Hybrid([], []);
    }
    var boxes := MergedPatchBoxes(active, nebulas);
    var patches: seq<Patch> := [];
    var i := 0;
    while i < |boxes|
      invariant 0 <= i <= |boxes| && AllBounds(patches) == boxes[..i]
      invariant AllShow(patches, Definition(fog, hook, active, nebulas))
    {
      var patch := BuildPatch(boxes[i], fog, hook, active, nebulas);
      assert boxes[i] in boxes;
      if patch.Some? {
        assert AllBounds(patches + [patch.value]) == AllBounds(patches) + [patch.value.Bounds()];
        patches := patches + [patch.value];
      }
      i := i + 1;
    }
    assert boxes[..|boxes|] == boxes;
    return Hybrid(Disks(active), patches);
  }

  method ActiveOrigins(origins: seq<Origin>) returns (active: seq<Origin>)
    ensures active == Active(origins)
  {
    active := [];
    var i := 0;
    while i < |origins|
      invariant 0 <= i <= |origins| && active == Active(origins[..i])
    {
      assert origins[..i + 1][..i] == origins[..i];
      if origins[i].baseRange > 0.0 { active := active + [origins[i]]; }
      i := i + 1;
    }
    assert origins[..|origins|] == origins;
  }

  // --- reading ------------------------------------------------------------------------------

  predicate InPatches(h: Hybrid, x: int, y: int) { exists p :: p in h.patches && p.Bounds().Has(x, y) }

  predicate DiskCovers(h: Hybrid, x: int, y: int) { exists d :: d in h.disks && Near(x - d.x, y - d.y, d.radius) }

  /** A patch decides every cell in its bounds; the disks decide the others. */
  method ReadCell(h: Hybrid, x: int, y: int) returns (r: Reading)
    ensures !InPatches(h, x, y) ==> r == Bit(DiskCovers(h, x, y))
    ensures forall covered {:trigger AllShow(h.patches, covered)} ::
            AllShow(h.patches, covered) && InPatches(h, x, y) ==> r == Bit(covered(x, y))
  {
    hide Shows;
    var i := 0;
    while i < |h.patches|
      invariant 0 <= i <= |h.patches| && forall k :: 0 <= k < i ==> !h.patches[k].Bounds().Has(x, y)
    {
      r := PatchCellCovered(h.patches[i], x, y);
      if !r.Outside? {
        assert h.patches[i] in h.patches;
        forall covered | AllShow(h.patches, covered) ensures r == Bit(covered(x, y)) {
          assert Shows(h.patches[i], covered);
        }
        return r;
      }
      i := i + 1;
    }
    var k := 0;
    while k < |h.disks|
      invariant 0 <= k <= |h.disks| && forall m :: 0 <= m < k ==>
                !Near(x - h.disks[m].x, y - h.disks[m].y, h.disks[m].radius)
    {
      if Near(x - h.disks[k].x, y - h.disks[k].y, h.disks[k].radius) {
        assert h.disks[k] in h.disks;
        return Bit(true);
      }
      k := k + 1;
    }
    return Bit(false);
  }

  // --- agreement ----------------------------------------------------------------------------

  /** In fog, a caller's own range brings no cell into reach of an origin that its base range
      does not reach. */
  ghost predicate NeverBeyond(hook: RangeHook, origins: seq<Origin>) {
    hook.Some? ==> forall o, d: int, dx: int, dy: int {:trigger Near(dx, dy, hook.value(o.baseRange, d))} ::
      o in origins && o.baseRange > 0.0 && d > 0 && Near(dx, dy, hook.value(o.baseRange, d)) ==>
          Near(dx, dy, o.baseRange)
  }

  /** Reading the hybrid at a cell gives what the cell definition says. */
  ghost predicate AgreesAt(fog: Fog, hook: RangeHook, origins: seq<Origin>, nebulas: seq<Nebula>, h: Hybrid, x: int,
          y: int)
  {
    CellCovered(fog, hook, origins, nebulas, x, y) <==>
      if InPatches(h, x, y) then Definition(fog, hook, Active(origins), nebulas)(x, y) else DiskCovers(h, x, y)
  }

  lemma OnlyActiveCount(fog: Fog, hook: RangeHook, origins: seq<Origin>, nebulas: seq<Nebula>, x: int, y: int)
    ensures CellCovered(fog, hook, Active(origins), nebulas, x, y) <==> CellCovered(fog, hook, origins, nebulas, x, y)
  {
    forall o ensures o in Active(origins) <==> o in origins && o.baseRange > 0.0 { ActiveMembers(origins, o); }
  }

  /** A touched nebula that holds a cell puts it into a patch. */
  lemma TouchedNebulaIsPatched(fog: Fog, hook: RangeHook, origins: seq<Origin>, nebulas: seq<Nebula>, h: Hybrid,
          n: Nebula, x: int, y: int)
    requires IsHybrid(fog, hook, origins, nebulas, h)
    requires n in nebulas && Touched(Active(origins), n) && Holds(n, x, y)
    ensures InPatches(h, x, y)
  {
    var boxes := TouchedBoxes(Active(origins), nebulas);
    TouchedBoxesMembers(Active(origins), nebulas, NebulaBox(n));
    var i: nat :| i < |boxes| && boxes[i] == NebulaBox(n);
    assert UnderSome(boxes[i], AsSet(AllBounds(h.patches)));
    var b :| b in AsSet(AllBounds(h.patches)) && Under(NebulaBox(n), b);
    var k: nat :| k < |h.patches| && AllBounds(h.patches)[k] == b;
    NearInBox(x - n.x, y - n.y, n.radius);
    assert h.patches[k].Bounds() == b && b.Has(x, y);
  }

  /** A nebula no disk meets keeps its cells out of every disk. */
  lemma UntouchedNebulaIsDark(o: Origin, n: Nebula, x: int, y: int)
    requires o.baseRange > 0.0 && !DiskMeets(o, n) && Holds(n, x, y)
    ensures !Near(x - o.x, y - o.y, o.baseRange)
  {
    if Near(x - o.x, y - o.y, o.baseRange) {
      NearNegated(x - o.x, y - o.y, o.baseRange);
      NearTriangle(-(x - o.x), -(y - o.y), x - n.x, y - n.y, o.baseRange, n.radius as real);
    }
  }

  lemma DisksAreIdealReach(fog: Fog, hook: RangeHook, origins: seq<Origin>, nebulas: seq<Nebula>, h: Hybrid, x: int,
          y: int)
    requires IsHybrid(fog, hook, origins, nebulas, h)
    ensures DiskCovers(h, x, y) <==> exists o ::
            o in origins && o.baseRange > 0.0 && Near(x - o.x, y - o.y, o.baseRange)
  {
    var active := Active(origins);
    if DiskCovers(h, x, y) {
      var d :| d in h.disks && Near(x - d.x, y - d.y, d.radius);
      var i: nat :| i < |h.disks| && h.disks[i] == d;
      ActiveMembers(origins, active[i]);
    }
    if exists o :: o in origins && o.baseRange > 0.0 && Near(x - o.x, y - o.y, o.baseRange) {
      var o :| o in origins && o.baseRange > 0.0 && Near(x - o.x, y - o.y, o.baseRange);
      ActiveMembers(origins, o);
      var i: nat :| i < |active| && active[i] == o;
      assert h.disks[i] == Disk(o.x, o.y, o.baseRange);
    }
  }

  /** Outside the patches the definition and the disks say the same. */
  lemma DisksDecideOutside(fog: Fog, hook: RangeHook, origins: seq<Origin>, nebulas: seq<Nebula>, h: Hybrid, x: int,
          y: int)
    requires IsHybrid(fog, hook, origins, nebulas, h) && NeverBeyond(hook, origins) && !InPatches(h, x, y)
    ensures CellCovered(fog, hook, origins, nebulas, x, y) <==> DiskCovers(h, x, y)
  {
    DisksAreIdealReach(fog, hook, origins, nebulas, h, x, y);
    var density := Density(fog, nebulas, x, y);
    if density > 0 {
      FogHasANebula(fog, nebulas, x, y);
      var n :| n in nebulas && Holds(n, x, y);
      if Touched(Active(origins), n) { TouchedNebulaIsPatched(fog, hook, origins, nebulas, h, n, x, y); }
      forall o | o in origins && o.baseRange > 0.0
          ensures !Near(x - o.x, y - o.y, o.baseRange) && !Reaches(fog, hook, o, density, x, y) {
        ActiveMembers(origins, o);
        UntouchedNebulaIsDark(o, n, x, y);
        var reach := EffectiveRange(fog, hook, o, density);
        if hook.None? && Near(x - o.x, y - o.y, reach) {
          FogOnlyCutsBack(fog, o, density);
          NearMonotone(x - o.x, y - o.y, reach, o.baseRange);
        }
      }
    } else {
      forall o | o in origins ensures Reaches(fog, hook, o, density, x, y) <==>
          o.baseRange > 0.0 && Near(x - o.x, y - o.y, o.baseRange) {}
    }
  }

  /** With the default ranges, the scanner's, or a hook that gains no cell in fog, the hybrid
      agrees with the definition on every cell of the map. */
  lemma HybridAgrees(fog: Fog, hook: RangeHook, origins: seq<Origin>, nebulas: seq<Nebula>, h: Hybrid, x: int, y: int)
    requires IsHybrid(fog, hook, origins, nebulas, h) && NeverBeyond(hook, origins)
    ensures AgreesAt(fog, hook, origins, nebulas, h, x, y)
  {
    OnlyActiveCount(fog, hook, origins, nebulas, x, y);
    if !InPatches(h, x, y) { DisksDecideOutside(fog, hook, origins, nebulas, h, x, y); }
  }

  /** Build, then read one cell. */
  method CoverageAt(fog: Fog, hook: RangeHook, origins: seq<Origin>, nebulas: seq<Nebula>, x: int, y: int)
          returns (r: Reading)
    requires NeverBeyond(hook, origins)
    ensures r == Bit(CellCovered(fog, hook, origins, nebulas, x, y))
    ensures hook.None? ==>
              r == Bit(exists o :: o in origins && SeenFrom(fog, o, Density(fog, nebulas, x, y), x, y))
  {
    if hook.None? { CoveredIffSeen(fog, origins, nebulas, x, y); }
    var h := BuildHybridCoverage(fog, hook, origins, nebulas);
    HybridAgrees(fog, hook, origins, nebulas, h, x, y);
    hide CellCovered, Definition, InPatches, DiskCovers, SeenFrom;
    r := ReadCell(h, x, y);
  }
}
