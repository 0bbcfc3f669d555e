/** Merging bounding boxes until none overlap. */
module CoverageBoxes {

  /** An inclusive box of map cells. */
  datatype Box = Box(minX: int, minY: int, maxX: int, maxY: int) {
    predicate Valid() { minX <= maxX && minY <= maxY }
    predicate Has(x: int, y: int) { minX <= x <= maxX && minY <= y <= maxY }
  }

  predicate Overlap(a: Box, b: Box) {
    !(a.maxX < b.minX || b.maxX < a.minX || a.maxY < b.minY || b.maxY < a.minY)
  }

  function Union(a: Box, b: Box): Box {
    Box(if a.minX <= b.minX then a.minX else b.minX, if a.minY <= b.minY then a.minY else b.minY,
        if a.maxX >= b.maxX then a.maxX else b.maxX, if a.maxY >= b.maxY then a.maxY else b.maxY)
  }

  /** Every cell of `a` is a cell of `b`. */
  predicate Under(a: Box, b: Box) {
    b.minX <= a.minX && b.minY <= a.minY && a.maxX <= b.maxX && a.maxY <= b.maxY
  }

  predicate UnderSome(a: Box, cover: set<Box>) { exists c :: c in cover && Under(a, c) }

  /** Two boxes overlap exactly when they have a cell in common. */
  lemma OverlapIsShared(a: Box, b: Box)
    requires a.Valid() && b.Valid()
    ensures Overlap(a, b) <==> exists x, y :: a.Has(x, y) && b.Has(x, y)
  {
    if Overlap(a, b) {
      var x := if a.minX >= b.minX then a.minX else b.minX;
      var y := if a.minY >= b.minY then a.minY else b.minY;
      assert a.Has(x, y) && b.Has(x, y);
    }
  }

  // --- covers -------------------------------------------------------------------------------

  ghost predicate Clear(a: Box, b: Box) { !Overlap(a, b) }

  ghost predicate Separate(boxes: seq<Box>) {
    forall i: nat, j: nat {:trigger Clear(boxes[i], boxes[j])} :: i < j < |boxes| ==> Clear(boxes[i], boxes[j])
  }

  ghost predicate Covers(cover: set<Box>, boxes: seq<Box>) {
    forall i: nat {:trigger boxes[i]} :: i < |boxes| ==> UnderSome(boxes[i], cover)
  }

  /** A set of boxes that do not overlap one another and between them cover the given ones. */
  ghost predicate DisjointCover(cover: set<Box>, boxes: seq<Box>) {
    Covers(cover, boxes) && forall c, d {:trigger Overlap(c, d)} :: c in cover && d in cover && Overlap(c, d) ==> c == d
  }

  lemma Apart(boxes: seq<Box>, i: nat, j: nat)
    requires Separate(boxes) && i < j < |boxes|
    ensures !Overlap(boxes[i], boxes[j])
  {
    assert Clear(boxes[i], boxes[j]);
  }

  function AsSet(boxes: seq<Box>): set<Box> { set b | b in boxes }

  /** Whatever covers the input boxes with boxes that are apart covers these too. */
  ghost predicate Below(out: seq<Box>, boxes: seq<Box>) {
    forall cover {:trigger DisjointCover(cover, boxes)} :: DisjointCover(cover, boxes) ==> Covers(cover, out)
  }

  /** The merged boxes: apart from each other, above every input box, and below every other
      cover whose boxes are apart. */
  ghost predicate LeastCover(merged: seq<Box>, boxes: seq<Box>) {
    && Separate(merged)
    && Covers(AsSet(merged), boxes)
    && Below(merged, boxes)
    && ((forall b :: b in boxes ==> b.Valid()) ==> forall m :: m in merged ==> m.Valid())
  }

  lemma UnderTransitive(a: Box, b: Box, c: Box)
    requires Under(a, b) && Under(b, c)
    ensures Under(a, c)
  {}

  /** What covers two overlapping boxes covers their union. */
  lemma UnionCovered(cover: set<Box>, boxes: seq<Box>, a: Box, b: Box)
    requires DisjointCover(cover, boxes) && UnderSome(a, cover) && UnderSome(b, cover) && Overlap(a, b)
    ensures UnderSome(Union(a, b), cover)
  {
    var c :| c in cover && Under(a, c);
    var d :| d in cover && Under(b, d);
    assert Overlap(c, d);
    assert Under(Union(a, b), c);
  }

  /** What a pass knows when it has handled the first `n` boxes: `next` still covers them, every
      disjoint cover still covers `next`, and if nothing merged `next` is just those boxes, apart. */
  ghost predicate Passing(boxes: seq<Box>, out: seq<Box>, n: nat, next: seq<Box>, changed: bool) {
    && n <= |out| && |next| <= n
    && (forall i: nat {:trigger out[i]} :: i < n ==> UnderSome(out[i], AsSet(next)))
    && Below(next, boxes)
    && (if changed then |next| < n else next == out[..n] && Separate(next))
    && ((forall b :: b in out ==> b.Valid()) ==> forall m :: m in next ==> m.Valid())
  }

  lemma PassStarts(boxes: seq<Box>, out: seq<Box>)
    ensures Passing(boxes, out, 0, [], false)
  {}

  lemma MergedStaysBelow(boxes: seq<Box>, out: seq<Box>, n: nat, next: seq<Box>, i: nat)
    requires Below(out, boxes) && Below(next, boxes) && n < |out| && i < |next| && Overlap(out[n], next[i])
    ensures Below(next[i := Union(next[i], out[n])], boxes)
  {
    var after := next[i := Union(next[i], out[n])];
    forall cover | DisjointCover(cover, boxes) ensures Covers(cover, after) {
      assert Covers(cover, out) && Covers(cover, next);
      assert UnderSome(out[n], cover) && UnderSome(next[i], cover);
      UnionCovered(cover, boxes, next[i], out[n]);
      hide Union, UnderSome, DisjointCover, Overlap;
      forall k: nat | k < |after| ensures UnderSome(after[k], cover) {
        if k != i { assert UnderSome(next[k], cover); }
      }
    }
  }

  lemma MergedCovers(next: seq<Box>, i: nat, b: Box, a: Box)
    requires i < |next| && (a == b || UnderSome(a, AsSet(next)))
    ensures UnderSome(a, AsSet(next[i := Union(next[i], b)]))
  {
    var after := next[i := Union(next[i], b)];
    assert after[i] in AsSet(after);
    if a == b {
      assert Under(a, after[i]);
    } else {
      var m :| m in AsSet(next) && Under(a, m);
      var j: nat :| j < |next| && next[j] == m;
      assert after[j] in AsSet(after) && Under(a, after[j]);
    }
  }

  lemma PassMerges(boxes: seq<Box>, out: seq<Box>, n: nat, next: seq<Box>, changed: bool, i: nat)
    requires Passing(boxes, out, n, next, changed) && n < |out| && i < |next| && Overlap(out[n], next[i])
    requires Below(out, boxes)
    ensures Passing(boxes, out, n + 1, next[i := Union(next[i], out[n])], true)
  {
    MergedStaysBelow(boxes, out, n, next, i);
    hide Below, Overlap, Separate;
    forall k: nat | k < n + 1 ensures UnderSome(out[k], AsSet(next[i := Union(next[i], out[n])])) {
      assert k < n ==> UnderSome(out[k], AsSet(next));
      MergedCovers(next, i, out[n], out[k]);
    }
    hide UnderSome;
    if forall b :: b in out ==> b.Valid() {
      assert out[n].Valid() && next[i].Valid();
    }
  }

  lemma PassAppends(boxes: seq<Box>, out: seq<Box>, n: nat, next: seq<Box>, changed: bool)
    requires Passing(boxes, out, n, next, changed) && n < |out|
    requires forall i: nat {:trigger next[i]} :: i < |next| ==> Clear(out[n], next[i])
    requires Below(out, boxes)
    ensures Passing(boxes, out, n + 1, next + [out[n]], changed)
  {
    var after := next + [out[n]];
    assert out[..n + 1] == out[..n] + [out[n]];
    assert after[|next|] == out[n];
    forall k: nat | k < n + 1 ensures UnderSome(out[k], AsSet(after)) {
      if k < n {
        assert UnderSome(out[k], AsSet(next));
        var m :| m in AsSet(next) && Under(out[k], m);
        assert m in AsSet(after);
      } else {
        assert out[n] in AsSet(after) && Under(out[n], out[n]);
      }
    }
    forall cover | DisjointCover(cover, boxes) ensures Covers(cover, after) {
      assert Covers(cover, out) && Covers(cover, next);
      forall k: nat | k < |after| ensures UnderSome(after[k], cover) {
        if k < |next| { assert UnderSome(next[k], cover); }
      }
    }
    if !changed {
      forall i: nat, j: nat | i < j < |after| ensures Clear(after[i], after[j]) {
        if j < |next| { assert Clear(next[i], next[j]); } else { assert Clear(out[n], next[i]); }
      }
    }
  }

  /** Put one box into the boxes already placed, merging it into the first it overlaps. */
  method Place(box: Box, next: seq<Box>) returns (after: seq<Box>, merged: bool, ghost at: nat)
    ensures merged ==> at < |next| && Overlap(box, next[at]) && after == next[at := Union(next[at], box)]
    ensures merged ==> forall k: nat :: k < at ==> !Overlap(box, next[k])
    ensures !merged ==> after == next + [box] && forall k: nat {:trigger next[k]} :: k < |next| ==> Clear(box, next[k])
  {
    var i := 0;
    while i < |next|
      invariant 0 <= i <= |next|
      invariant forall k: nat {:trigger next[k]} :: k < i ==> Clear(box, next[k])
    {
      if Overlap(box, next[i]) { return next[i := Union(next[i], box)], true, i; }
      i := i + 1;
    }
    return next + [box], false, 0;
  }

  /** One pass over all boxes. */
  method MergeOnce(ghost boxes: seq<Box>, out: seq<Box>) returns (next: seq<Box>, changed: bool)
    requires Below(out, boxes)
    ensures Passing(boxes, out, |out|, next, changed)
  {
    hide Passing, Below, Overlap, Clear, Union;
    next, changed := [], false;
    PassStarts(boxes, out);
    var n := 0;
    while n < |out|
      invariant n <= |out| && Passing(boxes, out, n, next, changed)
    {
      var after, merged, at := Place(out[n], next);
      if merged {
        PassMerges(boxes, out, n, next, changed, at);
        changed := true;
      } else {
        PassAppends(boxes, out, n, next, changed);
      }
      next := after;
      n := n + 1;
    }
  }

  lemma CoverOfCover(boxes: seq<Box>, out: seq<Box>, next: seq<Box>, changed: bool)
    requires Covers(AsSet(out), boxes) && Passing(boxes, out, |out|, next, changed)
    ensures Covers(AsSet(next), boxes)
  {
    forall i: nat | i < |boxes| ensures UnderSome(boxes[i], AsSet(next)) {
      var m :| m in AsSet(out) && Under(boxes[i], m);
      var k: nat :| k < |out| && out[k] == m;
      assert UnderSome(out[k], AsSet(next));
      var c :| c in AsSet(next) && Under(out[k], c);
      UnderTransitive(boxes[i], m, c);
    }
  }

  /** Merge until a whole pass changes nothing. */
  method MergeUntilDisjoint(boxes: seq<Box>) returns (out: seq<Box>)
    ensures LeastCover(out, boxes)
  {
    out := boxes;
    var changed := true;
    assert Covers(AsSet(out), boxes) by {
      forall i: nat | i < |boxes|
          ensures UnderSome(boxes[i], AsSet(boxes)) { assert boxes[i] in AsSet(boxes) && Under(boxes[i], boxes[i]); }
    }
    while changed
      invariant Covers(AsSet(out), boxes)
      invariant Below(out, boxes)
      invariant (forall b :: b in boxes ==> b.Valid()) ==> forall m :: m in out ==> m.Valid()
      invariant !changed ==> Separate(out)
      decreases |out|, changed
    {
      var next, merged := MergeOnce(boxes, out);
      CoverOfCover(boxes, out, next, merged);
      out, changed := next, merged;
    }
  }

  /** The result depends only on which boxes there are: not on their order, nor on repeats. */
  lemma LeastCoverIsUnique(boxes: seq<Box>, boxes': seq<Box>, merged: seq<Box>, merged': seq<Box>)
    requires AsSet(boxes) == AsSet(boxes') && forall b :: b in boxes ==> b.Valid()
    requires LeastCover(merged, boxes) && LeastCover(merged', boxes')
    ensures AsSet(merged) == AsSet(merged') && |merged| == |merged'|
  {
    assert forall b :: b in boxes' ==> b in AsSet(boxes);
    LeastBelow(boxes, boxes', merged, merged');
    assert forall b :: b in boxes ==> b in AsSet(boxes');
    LeastBelow(boxes', boxes, merged', merged);
    NoRepeats(merged);
    NoRepeats(merged');
  }

  lemma LeastBelow(boxes: seq<Box>, boxes': seq<Box>, merged: seq<Box>, merged': seq<Box>)
    requires AsSet(boxes) == AsSet(boxes') && (forall b :: b in boxes ==> b.Valid())
             && (forall b :: b in boxes' ==> b.Valid())
    requires LeastCover(merged, boxes) && LeastCover(merged', boxes')
    ensures AsSet(merged) <= AsSet(merged')
  {
    SeparateCovers(boxes', merged', boxes);
    SeparateCovers(boxes, merged, boxes');
    assert Covers(AsSet(merged'), merged) && Covers(AsSet(merged), merged');
    hide Below, LeastCover, Separate;
    forall m | m in merged ensures m in merged' { CoveredBack(boxes, merged, merged', m); }
  }

  lemma CoveredBack(boxes: seq<Box>, merged: seq<Box>, merged': seq<Box>, m: Box)
    requires DisjointCover(AsSet(merged), boxes) && Covers(AsSet(merged'), merged) && Covers(AsSet(merged), merged')
    requires m in merged && m.Valid()
    ensures m in merged'
  {
    var i: nat :| i < |merged| && merged[i] == m;
    assert UnderSome(merged[i], AsSet(merged'));
    var m' :| m' in AsSet(merged') && Under(m, m');
    var j: nat :| j < |merged'| && merged'[j] == m';
    assert UnderSome(merged'[j], AsSet(merged));
    var n :| n in AsSet(merged) && Under(m', n);
    assert Overlap(m, n);
  }

  /** Boxes that are apart and cover one list cover any list of the same boxes. */
  lemma SeparateCovers(boxes: seq<Box>, merged: seq<Box>, boxes': seq<Box>)
    requires Separate(merged) && Covers(AsSet(merged), boxes) && AsSet(boxes') <= AsSet(boxes)
    ensures DisjointCover(AsSet(merged), boxes')
  {
    forall i: nat | i < |boxes'| ensures UnderSome(boxes'[i], AsSet(merged)) {
      assert boxes'[i] in AsSet(boxes);
      var k: nat :| k < |boxes| && boxes[k] == boxes'[i];
    }
    forall c, d | c in AsSet(merged) && d in AsSet(merged) && Overlap(c, d) ensures c == d {
      var i: nat :| i < |merged| && merged[i] == c;
      var j: nat :| j < |merged| && merged[j] == d;
      if i < j { Apart(merged, i, j); }
      if j < i { Apart(merged, j, i); }
    }
  }

  lemma {:induction false} NoRepeats(merged: seq<Box>)
    requires Separate(merged) && forall m :: m in merged ==> m.Valid()
    ensures |AsSet(merged)| == |merged|
  {
    if merged != [] {
      var n := |merged| - 1;
      var front := merged[..n];
      forall i: nat, j: nat | i < j < n ensures Clear(front[i], front[j]) { assert Clear(merged[i], merged[j]); }
      NoRepeats(front);
      assert merged[n] !in front by {
        if merged[n] in front {
          var i: nat :| i < n && front[i] == merged[n];
          Apart(merged, i, n);
        }
      }
      assert AsSet(merged) == AsSet(front) + {merged[n]};
    }
  }
}
