/** Fills for the league teams of one turn: a hue each, and hatches where close hues border. */
module TeamPalette {
  import opened Prelude

  datatype Pattern = Solid | Forward | Back | Horizontal | Vertical | Dots

  const FILL_PATTERNS := [Solid, Forward, Back, Horizontal, Vertical, Dots]
  const CLOSE_HUE_DEGREES := 60.0

  type Neighbors = map<int, set<int>>

  function BordersOf(neighbors: Neighbors, team: int): set<int> { if team in neighbors then neighbors[team] else {} }

  // --- hues ---------------------------------------------------------------------------------

  function Hue(index: int, count: int): real
    requires count > 0
  {
    index as real * (360.0 / count as real)
  }

  /** Degrees between two hues, the shorter way round. */
  function HueDistance(left: real, right: real): real {
    var gap := if left >= right then left - right else right - left;
    var span := gap - 360.0 * (gap / 360.0).Floor as real;
    if span <= 360.0 - span then span else 360.0 - span
  }

  /** Steps between two places on a wheel of `count`, the shorter way round. */
  function WheelGap(i: int, j: int, count: int): int {
    var gap := if i >= j then i - j else j - i;
    if gap <= count - gap then gap else count - gap
  }

  function Steps(n: int, step: real): real { n as real * step }

  lemma StepsAdd(a: int, b: int, step: real)
    ensures Steps(a + b, step) == Steps(a, step) + Steps(b, step)
  {}

  lemma StepsOrder(a: int, b: int, step: real)
    requires step > 0.0
    ensures a < b <==> Steps(a, step) < Steps(b, step)
  {
    StepsAdd(a, b - a, step);
    if a < b {
      assert (b - a) as real * step > 0.0;
    } else {
      assert (a - b) as real * step >= 0.0;
      StepsAdd(b, a - b, step);
    }
  }

  lemma HueDistanceOnWheel(i: int, j: int, count: int)
    requires 0 <= i < count && 0 <= j < count
    ensures HueDistance(Hue(i, count), Hue(j, count)) == Steps(WheelGap(i, j, count), 360.0 / count as real)
  {
    var step := 360.0 / count as real;
    WholeWheel(count);
    assert Hue(i, count) == Steps(i, step) && Hue(j, count) == Steps(j, step);
    hide Hue, Steps;
    if i >= j { GapOnWheel(i, j, count, step); } else { GapOnWheel(j, i, count, step); }
  }

  lemma WholeWheel(count: int)
    requires count > 0
    ensures 360.0 / count as real > 0.0 && Steps(count, 360.0 / count as real) == 360.0
  {}

  lemma GapOnWheel(i: int, j: int, count: int, step: real)
    requires 0 <= j <= i < count && step > 0.0 && Steps(count, step) == 360.0
    ensures 0.0 <= Steps(i, step) - Steps(j, step) < 360.0
    ensures HueDistance(Steps(i, step), Steps(j, step)) == HueDistance(Steps(j, step), Steps(i, step))
            == Steps(WheelGap(i, j, count), step)
  {
    var d := i - j;
    StepsAdd(j, d, step);
    StepsAdd(d, count - d, step);
    StepsOrder(-1, d, step);
    StepsOrder(d, count, step);
    StepsOrder(count - d, d, step);
    assert Steps(0, step) == 0.0;
    StepsOrder(d, 0, step);
    hide Steps;
    SmallAngle(Steps(d, step));
  }

  lemma SmallAngle(angle: real)
    requires 0.0 <= angle < 360.0
    ensures (angle / 360.0).Floor == 0
  {}

  /** With at most 18 hues, hues under 60 degrees apart are at most two steps apart. */
  lemma CloseMeansTwoSteps(i: int, j: int, count: int)
    requires 0 <= i < count <= 18 && 0 <= j < count
    requires HueDistance(Hue(i, count), Hue(j, count)) < CLOSE_HUE_DEGREES
    ensures WheelGap(i, j, count) <= 2
  {
    HueDistanceOnWheel(i, j, count);
    var step := 360.0 / count as real;
    AtLeastTwentyDegrees(count);
    StepsOrder(WheelGap(i, j, count), 3, step);
  }

  lemma AtLeastTwentyDegrees(count: int)
    requires 0 < count <= 18
    ensures 360.0 / count as real > 0.0 && Steps(3, 360.0 / count as real) >= 60.0
  {
    var step := 360.0 / count as real;
    assert step * count as real == 360.0;
    assert step * count as real <= step * 18.0;
  }

  // --- giving out the hues ------------------------------------------------------------------

  /** The hues already given to teams of a set, in the order the teams were served. */
  function PoolOf(ids: seq<int>, chosen: seq<int>, teams: set<int>): seq<int>
    requires |chosen| <= |ids|
  {
    if chosen == [] then []
    else
      var n := |chosen| - 1;
      PoolOf(ids, chosen[..n], teams) + (if ids[n] in teams then [chosen[n]] else [])
  }

  /** Distance to the nearest hue of a pool, or the full circle for an empty one. */
  function Nearest(index: int, pool: seq<int>, count: int): real
    requires count > 0
  {
    if pool == [] then 360.0
    else
      var last := HueDistance(Hue(index, count), Hue(pool[|pool| - 1], count));
      var front := Nearest(index, pool[..|pool| - 1], count);
      if last < front then last else front
  }

  /** How far a hue is from those of bordering teams, or from all given out when none borders. */
  function Clearance(ids: seq<int>, neighbors: Neighbors, chosen: seq<int>, index: int): real
    requires |chosen| < |ids|
  {
    var bordering := PoolOf(ids, chosen, BordersOf(neighbors, ids[|chosen|]));
    Nearest(index, if bordering == [] then chosen else bordering, |ids|)
  }

  /** A hue scores better when it is clearer, or as clear and lower. */
  predicate Better(ids: seq<int>, neighbors: Neighbors, chosen: seq<int>, i: int, j: int)
    requires |chosen| < |ids|
  {
    var ci, cj := Clearance(ids, neighbors, chosen, i), Clearance(ids, neighbors, chosen, j);
    ci > cj || (ci == cj && Hue(i, |ids|) < Hue(j, |ids|))
  }

  /** Team `k` has a hue nobody before it has, and no hue left for it would score better. */
  ghost predicate BestAt(ids: seq<int>, neighbors: Neighbors, chosen: seq<int>, k: nat)
    requires k < |chosen| <= |ids|
  {
    && 0 <= chosen[k] < |ids| && chosen[k] !in chosen[..k]
    && forall i {:trigger Better(ids, neighbors, chosen[..k], i, chosen[k])} ::
         0 <= i < |ids| && i !in chosen[..k] ==> !Better(ids, neighbors, chosen[..k], i, chosen[k])
  }

  ghost predicate HuesGiven(ids: seq<int>, neighbors: Neighbors, chosen: seq<int>) {
    |chosen| <= |ids| && forall k: nat {:trigger BestAt(ids, neighbors, chosen, k)} :: k < |chosen| ==>
        BestAt(ids, neighbors, chosen, k)
  }

  lemma BetterIsTransitive(ids: seq<int>, neighbors: Neighbors, chosen: seq<int>, i: int, j: int, k: int)
    requires |chosen| < |ids| && !Better(ids, neighbors, chosen, i, j) && Better(ids, neighbors, chosen, k, j)
    ensures !Better(ids, neighbors, chosen, i, k)
  {}

  // --- clearance, said of the teams ---------------------------------------------------------

  /** An earlier team counts when it borders team `k`, or when no earlier one does. */
  predicate Counts(ids: seq<int>, neighbors: Neighbors, k: nat, m: nat)
    requires m < k < |ids|
  {
    || (ids[k] in neighbors && ids[m] in neighbors[ids[k]])
    || forall j: nat {:trigger ids[j]} :: j < k ==> !(ids[k] in neighbors && ids[j] in neighbors[ids[k]])
  }

  /** The nearest hue of a team that counts is `d` degrees away; with no team yet, a full circle. */
  ghost predicate NearestAt(ids: seq<int>, neighbors: Neighbors, chosen: seq<int>, k: nat, hue: int, d: real)
    requires k <= |chosen| <= |ids| && k < |ids|
  {
    && (forall m: nat {:trigger Counts(ids, neighbors, k, m)} :: m < k && Counts(ids, neighbors, k, m) ==>
          HueDistance(Hue(hue, |ids|), Hue(chosen[m], |ids|)) >= d)
    && if k == 0 then d == 360.0
       else exists m: nat {:trigger Counts(ids, neighbors, k, m)} :: m < k && Counts(ids, neighbors, k, m)
              && HueDistance(Hue(hue, |ids|), Hue(chosen[m], |ids|)) == d
  }

  /** No hue left would be clearer for team `k` than the one it has, nor as clear and lower. */
  ghost predicate ClearestAt(ids: seq<int>, neighbors: Neighbors, chosen: seq<int>, k: nat)
    requires k < |chosen| <= |ids|
  {
    var best := chosen[k];
    forall i, di, dc {:trigger NearestAt(ids, neighbors, chosen, k, i, di),
        NearestAt(ids, neighbors, chosen, k, best, dc)} ::
      (&& 0 <= i < |ids| && i !in chosen[..k]
       && NearestAt(ids, neighbors, chosen, k, i, di) && NearestAt(ids, neighbors, chosen, k, best, dc)) ==>
        dc > di || (dc == di && best <= i)
  }

  lemma HalfCircle(left: real, right: real)
    ensures HueDistance(left, right) <= 180.0
  {}

  lemma {:induction false} NearestIs(index: int, pool: seq<int>, count: int)
    requires count > 0
    ensures forall p :: p in pool ==> HueDistance(Hue(index, count), Hue(p, count)) >= Nearest(index, pool, count)
    ensures if pool == [] then Nearest(index, pool, count) == 360.0
            else exists p :: p in pool && HueDistance(Hue(index, count), Hue(p, count)) == Nearest(index, pool, count)
  {
    hide HueDistance, Hue;
    if pool != [] {
      var front, last := pool[..|pool| - 1], pool[|pool| - 1];
      NearestIs(index, front, count);
      HalfCircle(Hue(index, count), Hue(last, count));
      assert pool == front + [last];
    }
  }

  lemma {:induction false} PoolMembers(ids: seq<int>, chosen: seq<int>, teams: set<int>, hue: int)
    requires |chosen| <= |ids|
    ensures hue in PoolOf(ids, chosen, teams) <==>
            exists m: nat {:trigger ids[m]} :: m < |chosen| && ids[m] in teams && chosen[m] == hue
  {
    if chosen != [] {
      var n := |chosen| - 1;
      PoolMembers(ids, chosen[..n], teams, hue);
      if m: nat :| m < |chosen| && ids[m] in teams && chosen[m] == hue { assert m == n || chosen[..n][m] == hue; }
    }
  }

  lemma ClearanceIsNearest(ids: seq<int>, neighbors: Neighbors, chosen: seq<int>, k: nat, hue: int)
    requires k <= |chosen| <= |ids| && k < |ids|
    ensures NearestAt(ids, neighbors, chosen, k, hue, Clearance(ids, neighbors, chosen[..k], hue))
  {
    hide HueDistance, Hue;
    var before := chosen[..k];
    var borders := BordersOf(neighbors, ids[k]);
    var bordering := PoolOf(ids, before, borders);
    var pool := if bordering == [] then before else bordering;
    var d := Clearance(ids, neighbors, before, hue);
    NearestIs(hue, pool, |ids|);
    forall p ensures p in bordering <==> exists m: nat {:trigger ids[m]} ::
        m < k && ids[m] in borders && before[m] == p {
      PoolMembers(ids, before, borders, p);
    }
    forall m: nat | m < k && Counts(ids, neighbors, k, m) ensures chosen[m] in pool {
      assert before[m] == chosen[m];
      if bordering != [] {
        var p := bordering[0];
        assert p in bordering;
        var j: nat :| j < k && ids[j] in borders && before[j] == p;
      }
    }
    if k > 0 {
      assert before[0] in before;
      var p :| p in pool && HueDistance(Hue(hue, |ids|), Hue(p, |ids|)) == d;
      var m: nat := CountingTeam(ids, neighbors, chosen, k, p);
      assert Counts(ids, neighbors, k, m);
    }
  }

  lemma CountingTeam(ids: seq<int>, neighbors: Neighbors, chosen: seq<int>, k: nat, p: int) returns (m: nat)
    requires k <= |chosen| <= |ids| && k < |ids|
    requires var bordering := PoolOf(ids, chosen[..k], BordersOf(neighbors, ids[k]));
             p in if bordering == [] then chosen[..k] else bordering
    ensures m < k && Counts(ids, neighbors, k, m) && chosen[m] == p
  {
    var before, borders := chosen[..k], BordersOf(neighbors, ids[k]);
    var bordering := PoolOf(ids, before, borders);
    if bordering == [] {
      m :| m < k && before[m] == p;
      forall j: nat | j < k ensures ids[j] !in borders { PoolMembers(ids, before, borders, before[j]); }
    } else {
      PoolMembers(ids, before, borders, p);
      m :| m < k && ids[m] in borders && before[m] == p;
    }
  }

  lemma NearestIsUnique(ids: seq<int>, neighbors: Neighbors, chosen: seq<int>, k: nat, hue: int, d: real, d': real)
    requires k <= |chosen| <= |ids| && k < |ids|
    requires NearestAt(ids, neighbors, chosen, k, hue, d) && NearestAt(ids, neighbors, chosen, k, hue, d')
    ensures d == d'
  {
    hide HueDistance, Hue;
  }

  /** Each team has the clearest hue that was left for it. */
  lemma GivenIsClearest(ids: seq<int>, neighbors: Neighbors, chosen: seq<int>, k: nat)
    requires k < |chosen| <= |ids| && BestAt(ids, neighbors, chosen, k)
    ensures ClearestAt(ids, neighbors, chosen, k)
  {
    hide NearestAt, Clearance;
    forall i, di, dc | 0 <= i < |ids| && i !in chosen[..k] && NearestAt(ids, neighbors, chosen, k, i, di)
        && NearestAt(ids, neighbors, chosen, k, chosen[k], dc)
      ensures dc > di || (dc == di && chosen[k] <= i)
    {
      ClearanceIsNearest(ids, neighbors, chosen, k, i);
      ClearanceIsNearest(ids, neighbors, chosen, k, chosen[k]);
      NearestIsUnique(ids, neighbors, chosen, k, i, di, Clearance(ids, neighbors, chosen[..k], i));
      NearestIsUnique(ids, neighbors, chosen, k, chosen[k], dc, Clearance(ids, neighbors, chosen[..k], chosen[k]));
      assert !Better(ids, neighbors, chosen[..k], i, chosen[k]);
      HuesAscend(i, chosen[k], |ids|);
    }
  }

  lemma HuesAscend(i: int, j: int, count: int)
    requires count > 0
    ensures i < j <==> Hue(i, count) < Hue(j, count)
  {
    WholeWheel(count);
    StepsOrder(i, j, 360.0 / count as real);
  }

  method BestHue(ids: seq<int>, neighbors: Neighbors, chosen: seq<int>, remaining: seq<int>) returns (best: int)
    requires |chosen| < |ids| && remaining != []
    ensures best in remaining && forall i :: i in remaining ==> !Better(ids, neighbors, chosen, i, best)
  {
    hide Clearance, Hue;
    best := remaining[0];
    var n := 1;
    while n < |remaining|
      invariant 1 <= n <= |remaining| && best in remaining
      invariant forall m :: 0 <= m < n ==> !Better(ids, neighbors, chosen, remaining[m], best)
    {
      if Better(ids, neighbors, chosen, remaining[n], best) {
        forall m | 0 <= m < n ensures !Better(ids, neighbors, chosen, remaining[m], remaining[n]) {
          BetterIsTransitive(ids, neighbors, chosen, remaining[m], best, remaining[n]);
        }
        best := remaining[n];
      }
      n := n + 1;
    }
  }

  lemma GivenExtends(ids: seq<int>, neighbors: Neighbors, chosen: seq<int>, hue: int)
    requires HuesGiven(ids, neighbors, chosen) && |chosen| < |ids|
    requires 0 <= hue < |ids| && hue !in chosen
    requires forall i :: 0 <= i < |ids| && i !in chosen ==> !Better(ids, neighbors, chosen, i, hue)
    ensures HuesGiven(ids, neighbors, chosen + [hue])
  {
    var after := chosen + [hue];
    hide Better;
    forall k: nat | k < |after| ensures BestAt(ids, neighbors, after, k) {
      if k < |chosen| {
        assert BestAt(ids, neighbors, chosen, k);
        assert after[..k] == chosen[..k];
      } else {
        assert after[..k] == chosen;
      }
    }
  }

  method AssignHues(ids: seq<int>, neighbors: Neighbors) returns (chosen: seq<int>)
    ensures |chosen| == |ids| && HuesGiven(ids, neighbors, chosen)
    ensures forall k: nat {:trigger ClearestAt(ids, neighbors, chosen, k)} :: k < |ids| ==>
              ClearestAt(ids, neighbors, chosen, k)
  {
    hide HuesGiven, Better;
    chosen := [];
    var remaining := seq(|ids|, i => i);
    NothingGiven(ids, neighbors);
    assert NoDup(remaining) by { forall i: nat, j: nat | i < j < |remaining| ensures Differ(remaining, i, j) {} }
    forall i ensures i in remaining <==> 0 <= i < |ids| { assert 0 <= i < |ids| ==> remaining[i] == i; }
    while |chosen| < |ids|
      invariant |chosen| <= |ids| && HuesGiven(ids, neighbors, chosen)
      invariant NoDup(remaining) && |remaining| == |ids| - |chosen|
      invariant forall i :: i in remaining <==> 0 <= i < |ids| && i !in chosen
    {
      var best := BestHue(ids, neighbors, chosen, remaining);
      GivenExtends(ids, neighbors, chosen, best);
      WithoutMembers(remaining, best);
      WithoutLength(remaining, best);
      remaining := Without(remaining, best);
      chosen := chosen + [best];
    }
    AllAreClearest(ids, neighbors, chosen);
  }

  lemma AllAreClearest(ids: seq<int>, neighbors: Neighbors, chosen: seq<int>)
    requires |chosen| == |ids| && HuesGiven(ids, neighbors, chosen)
    ensures forall k: nat {:trigger ClearestAt(ids, neighbors, chosen, k)} :: k < |ids| ==>
              ClearestAt(ids, neighbors, chosen, k)
  {
    hide Better, ClearestAt;
    forall k: nat | k < |ids| ensures ClearestAt(ids, neighbors, chosen, k) {
      assert BestAt(ids, neighbors, chosen, k);
      GivenIsClearest(ids, neighbors, chosen, k);
    }
  }

  lemma NothingGiven(ids: seq<int>, neighbors: Neighbors)
    ensures HuesGiven(ids, neighbors, [])
  {}

  lemma {:induction false} WithoutLength(s: seq<int>, x: int)
    requires x in s
    ensures |Without(s, x)| == |s| - 1
  {
    if s[0] != x { WithoutLength(s[1..], x); }
  }

  /** Every team gets its own hue and every hue is given out. */
  lemma HuesAreABijection(ids: seq<int>, neighbors: Neighbors, chosen: seq<int>)
    requires |chosen| == |ids| && HuesGiven(ids, neighbors, chosen)
    ensures NoDup(chosen)
    ensures forall i :: i in chosen <==> 0 <= i < |ids|
  {
    hide Better;
    forall i: nat, j: nat | i < j < |chosen| ensures Differ(chosen, i, j) {
      assert BestAt(ids, neighbors, chosen, j);
      assert chosen[i] in chosen[..j];
    }
    forall k: nat | k < |chosen| ensures 0 <= chosen[k] < |ids| { assert BestAt(ids, neighbors, chosen, k); }
    Pigeonhole(chosen);
  }

  lemma {:induction false} DistinctCount(s: seq<int>)
    requires NoDup(s)
    ensures |set x | x in s| == |s|
  {
    if s != [] {
      NoDupTail(s);
      DistinctCount(s[1..]);
      assert (set x | x in s) == {s[0]} + set x | x in s[1..];
    }
  }

  lemma Pigeonhole(s: seq<int>)
    requires NoDup(s) && forall k: nat :: k < |s| ==> 0 <= s[k] < |s|
    ensures forall i :: 0 <= i < |s| ==> i in s
  {
    DistinctCount(s);
    var all := seq(|s|, i => i);
    assert NoDup(all) by { forall i: nat, j: nat | i < j < |all| ensures Differ(all, i, j) {} }
    DistinctCount(all);
    var have, want := set x | x in s, set x | x in all;
    assert have <= want by { forall x | x in have ensures x in want { assert all[x] == x; } }
    SameSize(have, want);
    forall i | 0 <= i < |s| ensures i in s { assert all[i] in want; }
  }

  lemma SameSize<T>(a: set<T>, b: set<T>)
    requires a <= b && |a| == |b|
    ensures a == b
  {
    assert b == a + (b - a) && |b| == |a| + |b - a|;
  }

  // --- giving out the hatches ---------------------------------------------------------------

  /** Two served teams border, as the later one sees it, and their hues are close. */
  predicate CloseBorder(ids: seq<int>, neighbors: Neighbors, chosen: seq<int>, m: int, k: int)
    requires 0 <= m < k < |ids| && |chosen| == |ids|
  {
    && ids[m] in BordersOf(neighbors, ids[k])
    && HueDistance(Hue(chosen[k], |ids|), Hue(chosen[m], |ids|)) < CLOSE_HUE_DEGREES
  }

  /** Close bordering teams served before team `k` that have the pattern. */
  function UsersOf(ids: seq<int>, neighbors: Neighbors, chosen: seq<int>, patterns: seq<Pattern>, k: int,
          p: Pattern): set<int>
    requires 0 <= k <= |patterns| && k < |ids| && |chosen| == |ids|
  {
    set m | 0 <= m < k && CloseBorder(ids, neighbors, chosen, m, k) && patterns[m] == p
  }

  predicate IsBlocked(ids: seq<int>, neighbors: Neighbors, chosen: seq<int>, patterns: seq<Pattern>, k: int, p: Pattern)
    requires 0 <= k <= |patterns| && k < |ids| && |chosen| == |ids|
  {
    UsersOf(ids, neighbors, chosen, patterns, k, p) != {}
  }

  predicate AllBlocked(ids: seq<int>, neighbors: Neighbors, chosen: seq<int>, patterns: seq<Pattern>, k: int)
    requires 0 <= k <= |patterns| && k < |ids| && |chosen| == |ids|
  {
    forall p :: p in FILL_PATTERNS ==> IsBlocked(ids, neighbors, chosen, patterns, k, p)
  }

  /** The choice at team `k`: the first pattern nobody close has, or else the least used. */
  ghost predicate HatchAt(ids: seq<int>, neighbors: Neighbors, chosen: seq<int>, patterns: seq<Pattern>, k: nat)
    requires k < |patterns| <= |ids| && |chosen| == |ids|
  {
    exists a: nat {:trigger FILL_PATTERNS[a]} ::
        a < |FILL_PATTERNS| && patterns[k] == FILL_PATTERNS[a] && IsChoice(ids, neighbors, chosen, patterns[..k], k, a)
  }

  ghost predicate IsChoice(ids: seq<int>, neighbors: Neighbors, chosen: seq<int>, patterns: seq<Pattern>, k: nat,
          a: nat)
    requires k <= |patterns| && k < |ids| && |chosen| == |ids| && a < |FILL_PATTERNS|
  {
    if AllBlocked(ids, neighbors, chosen, patterns, k) then
      forall b: nat {:trigger FILL_PATTERNS[b]} :: b < |FILL_PATTERNS| ==>
        var ua, ub := |UsersOf(ids, neighbors, chosen, patterns, k, FILL_PATTERNS[a])|,
            |UsersOf(ids, neighbors, chosen, patterns, k, FILL_PATTERNS[b])|;
        ua < ub || (ua == ub && a <= b)
    else
      && !IsBlocked(ids, neighbors, chosen, patterns, k, FILL_PATTERNS[a])
      && forall b: nat {:trigger FILL_PATTERNS[b]} :: b < a ==>
           IsBlocked(ids, neighbors, chosen, patterns, k, FILL_PATTERNS[b])
  }

  ghost predicate HatchesGiven(ids: seq<int>, neighbors: Neighbors, chosen: seq<int>, patterns: seq<Pattern>)
    requires |chosen| == |ids|
  {
    |patterns| <= |ids| && forall k: nat {:trigger HatchAt(ids, neighbors, chosen, patterns, k)} :: k < |patterns| ==>
        HatchAt(ids, neighbors, chosen, patterns, k)
  }

  method ChooseHatch(ids: seq<int>, neighbors: Neighbors, chosen: seq<int>, patterns: seq<Pattern>) returns (a: nat)
    requires |patterns| < |ids| && |chosen| == |ids|
    ensures a < |FILL_PATTERNS| && IsChoice(ids, neighbors, chosen, patterns, |patterns|, a)
  {
    var k := |patterns|;
    hide UsersOf;
    a := 0;
    while a < |FILL_PATTERNS|
      invariant a <= |FILL_PATTERNS|
      invariant forall b: nat {:trigger FILL_PATTERNS[b]} :: b < a ==>
                IsBlocked(ids, neighbors, chosen, patterns, k, FILL_PATTERNS[b])
    {
      if !IsBlocked(ids, neighbors, chosen, patterns, k, FILL_PATTERNS[a]) { return; }
      a := a + 1;
    }
    a := 0;
    var b := 1;
    while b < |FILL_PATTERNS|
      invariant 1 <= b <= |FILL_PATTERNS| && a < b
      invariant forall c: nat {:trigger FILL_PATTERNS[c]} :: c < b ==>
                  var ua, uc := |UsersOf(ids, neighbors, chosen, patterns, k, FILL_PATTERNS[a])|,
                      |UsersOf(ids, neighbors, chosen, patterns, k, FILL_PATTERNS[c])|;
                  ua < uc || (ua == uc && a <= c)
    {
      if |UsersOf(ids, neighbors, chosen, patterns, k, FILL_PATTERNS[b])| < |UsersOf(ids, neighbors, chosen, patterns,
          k, FILL_PATTERNS[a])| { a := b; }
      b := b + 1;
    }
  }

  lemma HatchExtends(ids: seq<int>, neighbors: Neighbors, chosen: seq<int>, patterns: seq<Pattern>, a: nat)
    requires |chosen| == |ids| && HatchesGiven(ids, neighbors, chosen, patterns) && |patterns| < |ids|
    requires a < |FILL_PATTERNS| && IsChoice(ids, neighbors, chosen, patterns, |patterns|, a)
    ensures HatchesGiven(ids, neighbors, chosen, patterns + [FILL_PATTERNS[a]])
  {
    var after := patterns + [FILL_PATTERNS[a]];
    hide IsChoice;
    forall k: nat | k < |after| ensures HatchAt(ids, neighbors, chosen, after, k) {
      if k < |patterns| {
        assert HatchAt(ids, neighbors, chosen, patterns, k);
        assert after[..k] == patterns[..k];
      } else {
        assert after[..k] == patterns;
      }
    }
  }

  // --- hatches, said of the teams -----------------------------------------------------------

  function PlaceOf(p: Pattern): nat {
    match p case Solid => 0 case Forward => 1 case Back => 2 case Horizontal => 3 case Vertical => 4 case Dots => 5
  }

  /** The earlier teams that border team `k`, are under 60 degrees away and have the pattern. */
  function CloseWith(ids: seq<int>, neighbors: Neighbors, chosen: seq<int>, patterns: seq<Pattern>, k: nat,
          p: Pattern): set<nat>
    requires k < |patterns| <= |ids| && |chosen| == |ids|
  {
    set m: nat | m < k && ids[k] in neighbors && ids[m] in neighbors[ids[k]]
                 && HueDistance(Hue(chosen[k], |ids|), Hue(chosen[m], |ids|)) < 60.0 && patterns[m] == p
  }

  /** Team `k` has the first pattern, in the given order, that none of those has; if each is taken,
      one that the fewest of them have, and the first such. */
  ghost predicate FirstFree(ids: seq<int>, neighbors: Neighbors, chosen: seq<int>, patterns: seq<Pattern>, k: nat)
    requires k < |patterns| <= |ids| && |chosen| == |ids|
  {
    var mine := CloseWith(ids, neighbors, chosen, patterns, k, patterns[k]);
    forall p: Pattern :: p != patterns[k] ==>
      var theirs := CloseWith(ids, neighbors, chosen, patterns, k, p);
      if theirs == {} then mine == {} && PlaceOf(patterns[k]) < PlaceOf(p)
      else mine == {} || |mine| < |theirs| || (|mine| == |theirs| && PlaceOf(patterns[k]) < PlaceOf(p))
  }

  lemma UsersAreClose(ids: seq<int>, neighbors: Neighbors, chosen: seq<int>, patterns: seq<Pattern>, k: nat, p: Pattern)
    requires k < |patterns| <= |ids| && |chosen| == |ids|
    ensures UsersOf(ids, neighbors, chosen, patterns[..k], k, p) == CloseWith(ids, neighbors, chosen, patterns, k, p)
  {
    var users: set<int>, close: set<int> :=
      UsersOf(ids, neighbors, chosen, patterns[..k], k, p), CloseWith(ids, neighbors, chosen, patterns, k, p);
    hide HueDistance, Hue;
    forall m: int ensures m in users <==> m in close {
      if 0 <= m < k { assert patterns[..k][m] == patterns[m]; }
    }
  }

  lemma ChoiceIsFirstFree(ids: seq<int>, neighbors: Neighbors, chosen: seq<int>, patterns: seq<Pattern>, k: nat)
    requires k < |patterns| <= |ids| && |chosen| == |ids| && HatchAt(ids, neighbors, chosen, patterns, k)
    ensures FirstFree(ids, neighbors, chosen, patterns, k)
  {
    var a: nat :| a < |FILL_PATTERNS| && patterns[k] == FILL_PATTERNS[a]
        && IsChoice(ids, neighbors, chosen, patterns[..k], k, a);
    assert PlaceOf(FILL_PATTERNS[a]) == a;
    forall p: Pattern ensures UsersOf(ids, neighbors, chosen, patterns[..k], k, p)
        == CloseWith(ids, neighbors, chosen, patterns, k, p) {
      UsersAreClose(ids, neighbors, chosen, patterns, k, p);
    }
    hide UsersOf, CloseWith;
    var mine := CloseWith(ids, neighbors, chosen, patterns, k, patterns[k]);
    forall p: Pattern | p != patterns[k]
      ensures var theirs := CloseWith(ids, neighbors, chosen, patterns, k, p);
              if theirs == {} then mine == {} && PlaceOf(patterns[k]) < PlaceOf(p)
              else mine == {} || |mine| < |theirs| || (|mine| == |theirs| && PlaceOf(patterns[k]) < PlaceOf(p))
    {
      var b := PlaceOf(p);
      assert FILL_PATTERNS[b] == p && p in FILL_PATTERNS && a != b;
      assert IsBlocked(ids, neighbors, chosen, patterns[..k], k, p) <==>
             CloseWith(ids, neighbors, chosen, patterns, k, p) != {};
    }
  }

  method AssignHatches(ids: seq<int>, neighbors: Neighbors, chosen: seq<int>) returns (patterns: seq<Pattern>)
    requires |chosen| == |ids|
    ensures |patterns| == |ids| && HatchesGiven(ids, neighbors, chosen, patterns)
    ensures forall k: nat {:trigger FirstFree(ids, neighbors, chosen, patterns, k)} :: k < |ids| ==>
              FirstFree(ids, neighbors, chosen, patterns, k)
  {
    hide HatchesGiven, IsChoice;
    patterns := [];
    NothingHatched(ids, neighbors, chosen);
    while |patterns| < |ids|
      invariant |patterns| <= |ids| && HatchesGiven(ids, neighbors, chosen, patterns)
    {
      var a := ChooseHatch(ids, neighbors, chosen, patterns);
      HatchExtends(ids, neighbors, chosen, patterns, a);
      patterns := patterns + [FILL_PATTERNS[a]];
    }
    AllAreFirstFree(ids, neighbors, chosen, patterns);
  }

  lemma AllAreFirstFree(ids: seq<int>, neighbors: Neighbors, chosen: seq<int>, patterns: seq<Pattern>)
    requires |chosen| == |patterns| == |ids| && HatchesGiven(ids, neighbors, chosen, patterns)
    ensures forall k: nat {:trigger FirstFree(ids, neighbors, chosen, patterns, k)} :: k < |ids| ==>
              FirstFree(ids, neighbors, chosen, patterns, k)
  {
    hide FirstFree, HatchAt;
    forall k: nat | k < |ids| ensures FirstFree(ids, neighbors, chosen, patterns, k) {
      assert HatchAt(ids, neighbors, chosen, patterns, k);
      ChoiceIsFirstFree(ids, neighbors, chosen, patterns, k);
    }
  }

  lemma NothingHatched(ids: seq<int>, neighbors: Neighbors, chosen: seq<int>)
    requires |chosen| == |ids|
    ensures HatchesGiven(ids, neighbors, chosen, [])
  {}

  // --- close borders look different ---------------------------------------------------------

  /** Team `k` differs from every close bordering team before it. */
  ghost predicate TeamDiffers(ids: seq<int>, neighbors: Neighbors, chosen: seq<int>, patterns: seq<Pattern>, k: nat)
    requires |chosen| == |patterns| == |ids| && k < |ids|
  {
    forall m: nat {:trigger CloseBorder(ids, neighbors, chosen, m, k)} ::
        m < k && CloseBorder(ids, neighbors, chosen, m, k) ==> patterns[m] != patterns[k]
  }

  /** Wherever close hues border, the hatches differ. */
  ghost predicate BordersDiffer(ids: seq<int>, neighbors: Neighbors, chosen: seq<int>, patterns: seq<Pattern>)
    requires |chosen| == |patterns| == |ids|
  {
    forall k: nat {:trigger TeamDiffers(ids, neighbors, chosen, patterns, k)} :: k < |ids| ==>
        TeamDiffers(ids, neighbors, chosen, patterns, k)
  }

  /** A hatch was free for team `k` when it was served. */
  ghost predicate HatchFree(ids: seq<int>, neighbors: Neighbors, chosen: seq<int>, patterns: seq<Pattern>, k: nat)
    requires |chosen| == |patterns| == |ids| && k < |ids|
  {
    !AllBlocked(ids, neighbors, chosen, patterns[..k], k)
  }

  /** They differ everywhere exactly when no team sees all six hatches on close borders. */
  lemma BordersDifferIff(ids: seq<int>, neighbors: Neighbors, chosen: seq<int>, patterns: seq<Pattern>)
    requires |chosen| == |patterns| == |ids| && HatchesGiven(ids, neighbors, chosen, patterns)
    ensures BordersDiffer(ids, neighbors, chosen, patterns) <==>
            forall k: nat {:trigger HatchFree(ids, neighbors, chosen, patterns, k)} :: k < |ids| ==>
                HatchFree(ids, neighbors, chosen, patterns, k)
  {
    hide HatchFree, TeamDiffers, HatchesGiven;
    forall k: nat | k < |ids| ensures TeamDiffers(ids, neighbors, chosen, patterns, k) <==>
        HatchFree(ids, neighbors, chosen, patterns, k) {
      TeamDiffersIff(ids, neighbors, chosen, patterns, k);
    }
  }

  lemma TeamDiffersIff(ids: seq<int>, neighbors: Neighbors, chosen: seq<int>, patterns: seq<Pattern>, k: nat)
    requires |chosen| == |patterns| == |ids| && HatchesGiven(ids, neighbors, chosen, patterns) && k < |ids|
    ensures TeamDiffers(ids, neighbors, chosen, patterns, k) <==> HatchFree(ids, neighbors, chosen, patterns, k)
  {
    assert HatchAt(ids, neighbors, chosen, patterns, k);
    var a: nat :| a < |FILL_PATTERNS| && patterns[k] == FILL_PATTERNS[a]
        && IsChoice(ids, neighbors, chosen, patterns[..k], k, a);
    assert FILL_PATTERNS[a] in FILL_PATTERNS;
    var users := UsersOf(ids, neighbors, chosen, patterns[..k], k, FILL_PATTERNS[a]);
    assert IsBlocked(ids, neighbors, chosen, patterns[..k], k, FILL_PATTERNS[a]) <==> users != {};
    hide CloseBorder;
    if users != {} {
      var m :| m in users;
      assert patterns[m] == patterns[k];
    } else {
      forall m: nat | m < k && CloseBorder(ids, neighbors, chosen, m, k) ensures patterns[m] != patterns[k] {
        assert m !in users;
      }
    }
  }

  // --- at most eighteen teams ---------------------------------------------------------------

  /** Where place `j` lies from place `i`, when it is at most two steps away. */
  function Offset(i: int, j: int, count: int): int {
    var d := j - i;
    if d > 2 then d - count else if d < -2 then d + count else d
  }

  predicate TwoAway(o: int) { o == -2 || o == -1 || o == 1 || o == 2 }

  lemma OffsetIsOneOfFour(i: int, j: int, count: int)
    requires 0 <= i < count && 0 <= j < count && i != j && WheelGap(i, j, count) <= 2
    ensures TwoAway(Offset(i, j, count))
  {}

  lemma OffsetInjective(i: int, j: int, j': int, count: int)
    requires 0 <= i < count && 0 <= j < count && 0 <= j' < count && Offset(i, j, count) == Offset(i, j', count)
    requires WheelGap(i, j, count) <= 2 && WheelGap(i, j', count) <= 2
    ensures j == j'
  {}

  /** A close bordering team before team `k`, `o` places away, has the pattern. */
  ghost predicate BlockedFrom(ids: seq<int>, neighbors: Neighbors, chosen: seq<int>, patterns: seq<Pattern>, k: nat,
          o: int, p: Pattern)
    requires |chosen| == |patterns| == |ids| && k < |ids|
  {
    exists m {:trigger CloseBorder(ids, neighbors, chosen, m, k)} ::
      && 0 <= m < k && CloseBorder(ids, neighbors, chosen, m, k)
      && patterns[m] == p && Offset(chosen[k], chosen[m], |ids|) == o
  }

  ghost predicate ProperHues(ids: seq<int>, chosen: seq<int>) {
    |chosen| == |ids| && NoDup(chosen) && forall m: nat :: m < |chosen| ==> 0 <= chosen[m] < |ids|
  }

  lemma BlockingOffset(ids: seq<int>, neighbors: Neighbors, chosen: seq<int>, patterns: seq<Pattern>, k: nat,
          p: Pattern) returns (o: int)
    requires ProperHues(ids, chosen) && |patterns| == |ids| <= 18 && k < |ids|
    requires IsBlocked(ids, neighbors, chosen, patterns[..k], k, p)
    ensures TwoAway(o) && BlockedFrom(ids, neighbors, chosen, patterns, k, o, p)
  {
    var m :| m in UsersOf(ids, neighbors, chosen, patterns[..k], k, p);
    assert CloseBorder(ids, neighbors, chosen, m, k);
    assert Differ(chosen, m, k);
    CloseMeansTwoSteps(chosen[k], chosen[m], |ids|);
    OffsetIsOneOfFour(chosen[k], chosen[m], |ids|);
    o := Offset(chosen[k], chosen[m], |ids|);
  }

  lemma DistinctAt(s: seq<int>, i: nat, j: nat)
    requires NoDup(s) && i < |s| && j < |s| && i != j
    ensures s[i] != s[j]
  {
    if i < j { assert Differ(s, i, j); } else { assert Differ(s, j, i); }
  }

  /** One place holds one team, so it blocks one hatch. */
  lemma OnePlaceOneHatch(ids: seq<int>, neighbors: Neighbors, chosen: seq<int>, patterns: seq<Pattern>, k: nat)
    requires ProperHues(ids, chosen) && |patterns| == |ids| <= 18 && k < |ids|
    ensures forall o, p, q {:trigger BlockedFrom(ids, neighbors, chosen, patterns, k, o, p),
            BlockedFrom(ids, neighbors, chosen, patterns, k, o, q)} ::
              BlockedFrom(ids, neighbors, chosen, patterns, k, o, p)
              && BlockedFrom(ids, neighbors, chosen, patterns, k, o, q)
              ==> p == q
  {
    forall o, p, q | BlockedFrom(ids, neighbors, chosen, patterns, k, o, p) && BlockedFrom(ids, neighbors, chosen,
        patterns, k, o, q) ensures p == q {
      var m :| 0 <= m < k && CloseBorder(ids, neighbors, chosen, m, k) && patterns[m] == p
          && Offset(chosen[k], chosen[m], |ids|) == o;
      var n :| 0 <= n < k && CloseBorder(ids, neighbors, chosen, n, k) && patterns[n] == q
          && Offset(chosen[k], chosen[n], |ids|) == o;
      CloseMeansTwoSteps(chosen[k], chosen[m], |ids|);
      CloseMeansTwoSteps(chosen[k], chosen[n], |ids|);
      OffsetInjective(chosen[k], chosen[m], chosen[n], |ids|);
      if m != n { DistinctAt(chosen, m, n); }
    }
  }

  lemma TwoShareAPlace(a: int, b: int, c: int, d: int, e: int)
    requires TwoAway(a) && TwoAway(b) && TwoAway(c) && TwoAway(d) && TwoAway(e)
    ensures a == b || a == c || a == d || a == e || b == c || b == d || b == e || c == d || c == e || d == e
  {}

  /** With at most 18 teams some hatch is always free: at most four others have a close hue. */
  lemma SomeHatchIsFree(ids: seq<int>, neighbors: Neighbors, chosen: seq<int>, patterns: seq<Pattern>, k: nat)
    requires ProperHues(ids, chosen) && |patterns| == |ids| <= 18 && k < |ids|
    ensures HatchFree(ids, neighbors, chosen, patterns, k)
  {
    if AllBlocked(ids, neighbors, chosen, patterns[..k], k) {
      assert forall p :: p == Solid || p == Forward || p == Back || p == Horizontal || p == Vertical ==>
             p in FILL_PATTERNS by {
        assert FILL_PATTERNS[0] == Solid && FILL_PATTERNS[1] == Forward && FILL_PATTERNS[2] == Back
               && FILL_PATTERNS[3] == Horizontal && FILL_PATTERNS[4] == Vertical;
      }
      var a := BlockingOffset(ids, neighbors, chosen, patterns, k, Solid);
      var b := BlockingOffset(ids, neighbors, chosen, patterns, k, Forward);
      var c := BlockingOffset(ids, neighbors, chosen, patterns, k, Back);
      var d := BlockingOffset(ids, neighbors, chosen, patterns, k, Horizontal);
      var e := BlockingOffset(ids, neighbors, chosen, patterns, k, Vertical);
      OnePlaceOneHatch(ids, neighbors, chosen, patterns, k);
      hide BlockedFrom, AllBlocked, ProperHues;
      TwoShareAPlace(a, b, c, d, e);
    }
  }

  // --- the styles ---------------------------------------------------------------------------

  datatype TeamStyle = TeamStyle(hue: real, pattern: Pattern)

  ghost predicate Ascending(ids: seq<int>) {
    forall i: nat, j: nat {:trigger ids[i], ids[j]} :: i < j < |ids| ==> ids[i] < ids[j]
  }

  /** The positive ids, each once, in order. */
  function SortedIds(teamIds: seq<int>): seq<int> {
    if teamIds == [] then []
    else if teamIds[0] > 0 then InsertId(teamIds[0], SortedIds(teamIds[1..]))
    else SortedIds(teamIds[1..])
  }

  function InsertId(id: int, ids: seq<int>): seq<int> {
    if ids == [] || id < ids[0] then [id] + ids
    else if id == ids[0] then ids
    else [ids[0]] + InsertId(id, ids[1..])
  }

  lemma {:induction false} InsertIdSorted(id: int, ids: seq<int>)
    requires Ascending(ids)
    ensures Ascending(InsertId(id, ids))
    ensures forall x :: x in InsertId(id, ids) <==> x == id || x in ids
  {
    if ids != [] && id > ids[0] {
      assert ids == [ids[0]] + ids[1..];
      InsertIdSorted(id, ids[1..]);
      var rest := InsertId(id, ids[1..]);
      forall j: nat | j < |rest| ensures ids[0] < rest[j] { assert rest[j] in rest; }
    }
  }

  lemma {:induction false} SortedIdsAre(teamIds: seq<int>)
    ensures Ascending(SortedIds(teamIds))
    ensures forall x :: x in SortedIds(teamIds) <==> x in teamIds && x > 0
  {
    if teamIds != [] {
      assert teamIds == [teamIds[0]] + teamIds[1..];
      SortedIdsAre(teamIds[1..]);
      InsertIdSorted(teamIds[0], SortedIds(teamIds[1..]));
    }
  }

  ghost predicate Symmetric(neighbors: Neighbors) {
    forall u, v :: u in BordersOf(neighbors, v) <==> v in BordersOf(neighbors, u)
  }

  /** The styles are those given to the sorted ids. */
  ghost predicate StylesOf(ids: seq<int>, chosen: seq<int>, patterns: seq<Pattern>, styles: map<int, TeamStyle>)
    requires |chosen| == |patterns| == |ids|
  {
    && (forall u :: u in styles <==> u in ids)
    && (forall k: nat {:trigger ids[k]} :: k < |ids| ==>
         ids[k] in styles && styles[ids[k]] == TeamStyle(Hue(chosen[k], |ids|), patterns[k]))
  }

  method AssignTeamStyles(teamIds: seq<int>, neighbors: Neighbors)
          returns (styles: map<int, TeamStyle>, ghost chosen: seq<int>, ghost patterns: seq<Pattern>)
    ensures var ids := SortedIds(teamIds);
            && |chosen| == |patterns| == |ids|
            && HuesGiven(ids, neighbors, chosen) && HatchesGiven(ids, neighbors, chosen, patterns)
                 && StylesOf(ids, chosen, patterns, styles)
    ensures Symmetric(neighbors) && |SortedIds(teamIds)| <= 18 ==> CloseBordersLookDifferent(neighbors, styles)
  {
    var ids := SortedIds(teamIds);
    SortedIdsAre(teamIds);
    var hues := AssignHues(ids, neighbors);
    var hatches := AssignHatches(ids, neighbors, hues);
    chosen, patterns := hues, hatches;
    hide HuesGiven, HatchesGiven;
    styles := map[];
    var k := 0;
    while k < |ids|
      invariant 0 <= k <= |ids|
      invariant forall u :: u in styles <==> u in ids[..k]
      invariant forall m: nat {:trigger ids[m]} :: m < k ==>
                ids[m] in styles && styles[ids[m]] == TeamStyle(Hue(hues[m], |ids|), hatches[m])
    {
      assert ids[..k + 1] == ids[..k] + [ids[k]];
      styles := styles[ids[k] := TeamStyle(Hue(hues[k], |ids|), hatches[k])];
      k := k + 1;
    }
    assert ids[..|ids|] == ids;
    if Symmetric(neighbors) && |ids| <= 18 { EighteenTeamsLookDifferent(ids, neighbors, hues, hatches, styles); }
  }

  /** Any two bordering teams with close hues have different hatches. */
  ghost predicate CloseBordersLookDifferent(neighbors: Neighbors, styles: map<int, TeamStyle>) {
    forall u, v {:trigger styles[u], styles[v]} ::
      (u in styles && v in styles && u != v && v in BordersOf(neighbors, u)
          && HueDistance(styles[u].hue, styles[v].hue) < CLOSE_HUE_DEGREES)
      ==> styles[u].pattern != styles[v].pattern
  }

  lemma HueDistanceSymmetric(a: real, b: real)
    ensures HueDistance(a, b) == HueDistance(b, a)
  {}

  lemma EighteenTeamsLookDifferent(ids: seq<int>, neighbors: Neighbors, chosen: seq<int>, patterns: seq<Pattern>,
          styles: map<int, TeamStyle>)
    requires Symmetric(neighbors) && |chosen| == |patterns| == |ids| <= 18
    requires HuesGiven(ids, neighbors, chosen) && HatchesGiven(ids, neighbors, chosen, patterns)
             && StylesOf(ids, chosen, patterns, styles)
    ensures CloseBordersLookDifferent(neighbors, styles)
  {
    HuesAreABijection(ids, neighbors, chosen);
    forall m: nat | m < |chosen| ensures 0 <= chosen[m] < |ids| { assert chosen[m] in chosen; }
    hide HatchFree, TeamDiffers, HuesGiven, HatchesGiven, HueDistance, Hue;
    forall k: nat | k < |ids|
        ensures HatchFree(ids, neighbors, chosen, patterns, k) { SomeHatchIsFree(ids, neighbors, chosen, patterns, k); }
    BordersDifferIff(ids, neighbors, chosen, patterns);
    forall u, v | u in styles && v in styles && u != v && v in BordersOf(neighbors, u)
      && HueDistance(styles[u].hue, styles[v].hue) < CLOSE_HUE_DEGREES
      ensures styles[u].pattern != styles[v].pattern
    {
      var i: nat :| i < |ids| && ids[i] == u;
      var j: nat :| j < |ids| && ids[j] == v;
      HueDistanceSymmetric(styles[u].hue, styles[v].hue);
      PairDiffers(ids, neighbors, chosen, patterns, if i < j then i else j, if i < j then j else i);
    }
  }

  lemma PairDiffers(ids: seq<int>, neighbors: Neighbors, chosen: seq<int>, patterns: seq<Pattern>, m: nat, k: nat)
    requires |chosen| == |patterns| == |ids| && m < k < |ids| && BordersDiffer(ids, neighbors, chosen, patterns)
    requires ids[m] in BordersOf(neighbors, ids[k])
             && HueDistance(Hue(chosen[k], |ids|), Hue(chosen[m], |ids|)) < CLOSE_HUE_DEGREES
    ensures patterns[m] != patterns[k]
  {
    assert TeamDiffers(ids, neighbors, chosen, patterns, k);
    assert CloseBorder(ids, neighbors, chosen, m, k);
  }
}
