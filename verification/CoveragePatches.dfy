/** Run-length coded coverage patches, and reading one cell of a patch. */
module CoveragePatches {
  import opened Prelude
  import opened CoverageCells
  import opened CoverageBoxes

  datatype Run = Run(length: int, covered: bool)
  datatype Patch = Patch(originX: int, originY: int, width: int, height: int, runs: seq<Run>) {
    function Bounds(): Box { Box(originX, originY, originX + width - 1, originY + height - 1) }
  }

  // --- run-length coding --------------------------------------------------------------------

  function Repeat(covered: bool, n: int): seq<bool> { if n <= 0 then [] else seq(n, _ => covered) }

  function Expand(runs: seq<Run>): seq<bool> {
    if runs == [] then [] else Expand(runs[..|runs| - 1]) + Repeat(runs[|runs| - 1].covered, runs[|runs| - 1].length)
  }

  /** No run is empty and neighbouring runs differ. */
  ghost predicate Canonical(runs: seq<Run>) {
    && (forall i :: 0 <= i < |runs| ==> runs[i].length > 0)
    && (forall i :: 0 < i < |runs| ==> runs[i].covered != runs[i - 1].covered)
  }

  lemma AppendRun(runs: seq<Run>, r: Run)
    ensures Expand(runs + [r]) == Expand(runs) + Repeat(r.covered, r.length)
  {
    hide Repeat;
    var after := runs + [r];
    assert after[..|after| - 1] == runs && after[|after| - 1] == r;
  }

  lemma AppendCanonical(runs: seq<Run>, r: Run)
    requires Canonical(runs) && r.length > 0 && (runs != [] ==> runs[|runs| - 1].covered != r.covered)
    ensures Canonical(runs + [r])
  {}

  /** The first `i` cells are coded by the finished runs and an open run of `length` cells. */
  ghost predicate Coding(cells: seq<bool>, i: nat, runs: seq<Run>, current: bool, length: int) {
    && 0 < i <= |cells| && length >= 1 && Canonical(runs)
    && Expand(runs) + Repeat(current, length) == cells[..i]
    && (runs != [] ==> runs[|runs| - 1].covered != current)
  }

  lemma CodingStarts(cells: seq<bool>)
    requires cells != []
    ensures Coding(cells, 1, [], cells[0], 1)
  {}

  lemma CodingExtends(cells: seq<bool>, i: nat, runs: seq<Run>, current: bool, length: int)
    requires Coding(cells, i, runs, current, length) && i < |cells| && cells[i] == current
    ensures Coding(cells, i + 1, runs, current, length + 1)
  {
    hide Canonical, Expand;
    assert Repeat(current, length + 1) == Repeat(current, length) + [current];
    assert cells[..i + 1] == cells[..i] + [cells[i]];
  }

  lemma CodingBreaks(cells: seq<bool>, i: nat, runs: seq<Run>, current: bool, length: int)
    requires Coding(cells, i, runs, current, length) && i < |cells| && cells[i] != current
    ensures Coding(cells, i + 1, runs + [Run(length, current)], cells[i], 1)
  {
    AppendRun(runs, Run(length, current));
    AppendCanonical(runs, Run(length, current));
    hide Canonical, Expand;
    assert Repeat(cells[i], 1) == [cells[i]];
    assert cells[..i + 1] == cells[..i] + [cells[i]];
  }

  lemma CodingEnds(cells: seq<bool>, runs: seq<Run>, current: bool, length: int)
    requires Coding(cells, |cells|, runs, current, length)
    ensures Expand(runs + [Run(length, current)]) == cells && Canonical(runs + [Run(length, current)])
  {
    AppendRun(runs, Run(length, current));
    AppendCanonical(runs, Run(length, current));
    assert cells[..|cells|] == cells;
  }

  method EncodeCoverageRle(cells: seq<bool>) returns (runs: seq<Run>)
    ensures Expand(runs) == cells && Canonical(runs)
  {
    if cells == [] { return []; }
    hide Coding;
    runs := [];
    var current := cells[0];
    var length := 1;
    var i := 1;
    CodingStarts(cells);
    while i < |cells|
      invariant 1 <= i <= |cells| && Coding(cells, i, runs, current, length)
    {
      if cells[i] == current {
        CodingExtends(cells, i, runs, current, length);
        length := length + 1;
      } else {
        CodingBreaks(cells, i, runs, current, length);
        runs := runs + [Run(length, current)];
        current := cells[i];
        length := 1;
      }
      i := i + 1;
    }
    CodingEnds(cells, runs, current, length);
    runs := runs + [Run(length, current)];
  }

  ghost predicate EndsWith(cells: seq<bool>, r: Run) {
    && 0 < r.length <= |cells|
    && (forall i :: |cells| - r.length <= i < |cells| ==> cells[i] == r.covered)
    && (r.length < |cells| ==> cells[|cells| - r.length - 1] != r.covered)
  }

  lemma SameLastRun(cells: seq<bool>, r: Run, r': Run)
    requires EndsWith(cells, r) && EndsWith(cells, r')
    ensures r == r'
  {
    assert cells[|cells| - 1] == r.covered == r'.covered;
  }

  lemma {:induction false} LastRun(runs: seq<Run>)
    requires Canonical(runs) && runs != []
    ensures EndsWith(Expand(runs), runs[|runs| - 1])
    ensures Expand(runs)[..|Expand(runs)| - runs[|runs| - 1].length] == Expand(runs[..|runs| - 1])
    ensures Canonical(runs[..|runs| - 1])
  {
    var front := runs[..|runs| - 1];
    if front != [] {
      LastRun(front);
      assert front[|front| - 1].covered != runs[|runs| - 1].covered;
    }
  }

  lemma FrontAndLast<T>(s: seq<T>, t: seq<T>)
    requires s != [] && t != [] && s[..|s| - 1] == t[..|t| - 1] && s[|s| - 1] == t[|t| - 1]
    ensures s == t
  {
    assert s == s[..|s| - 1] + [s[|s| - 1]] && t == t[..|t| - 1] + [t[|t| - 1]];
  }

  /** There is one canonical coding of a mask, so the encoder's result is fixed. */
  lemma {:induction false} CanonicalIsUnique(runs: seq<Run>, runs': seq<Run>)
    requires Canonical(runs) && Canonical(runs') && Expand(runs) == Expand(runs')
    ensures runs == runs'
  {
    if runs == [] {
      if runs' != [] { LastRun(runs'); }
    } else if runs' == [] {
      LastRun(runs);
    } else {
      LastRun(runs);
      LastRun(runs');
      SameLastRun(Expand(runs), runs[|runs| - 1], runs'[|runs'| - 1]);
      hide Expand, Canonical, EndsWith;
      CanonicalIsUnique(runs[..|runs| - 1], runs'[..|runs'| - 1]);
      FrontAndLast(runs, runs');
    }
  }

  datatype Decoded = Cells(cells: seq<bool>) | NegativeLength(length: int) | WrongSize(size: nat)

  /** Expand a patch, rejecting a negative run and a mask of the wrong size. */
  method DecodePatchCoverage(patch: Patch) returns (d: Decoded)
    ensures d.Cells? <==>
            (forall r :: r in patch.runs ==> r.length >= 0) && |Expand(patch.runs)| == patch.width * patch.height
    ensures d.Cells? ==> d.cells == Expand(patch.runs)
    ensures d.NegativeLength? <==> exists r :: r in patch.runs && r.length < 0
  {
    var cells: seq<bool> := [];
    var i := 0;
    while i < |patch.runs|
      invariant 0 <= i <= |patch.runs| && cells == Expand(patch.runs[..i])
      invariant forall r :: r in patch.runs[..i] ==> r.length >= 0
    {
      var run := patch.runs[i];
      if run.length < 0 {
        assert run in patch.runs;
        return NegativeLength(run.length);
      }
      assert patch.runs[..i + 1] == patch.runs[..i] + [run];
      assert patch.runs[..i + 1][..i] == patch.runs[..i];
      cells := cells + Repeat(run.covered, run.length);
      i := i + 1;
    }
    assert patch.runs[..|patch.runs|] == patch.runs;
    return if |cells| == patch.width * patch.height then Cells(cells) else WrongSize(|cells|);
  }

  // --- cells of a patch ---------------------------------------------------------------------

  /** Row-major: the bit of column `col` in row `row`. */
  ghost predicate CellAt(cells: seq<bool>, width: int, row: nat, col: nat) {
    0 <= row * width + col < |cells| && cells[row * width + col]
  }

  /** The patch is well formed and its mask holds `covered` for every cell of its bounds. */
  ghost predicate Shows(patch: Patch, covered: (int, int) -> bool) {
    && patch.width > 0 && patch.height > 0 && Canonical(patch.runs)
    && |Expand(patch.runs)| == patch.width * patch.height
    && forall row: nat, col: nat {:trigger CellAt(Expand(patch.runs), patch.width, row, col)} ::
         row < patch.height && col < patch.width ==>
         (CellAt(Expand(patch.runs), patch.width, row, col) <==> covered(patch.originX + col, patch.originY + row))
  }

  lemma RowsUpTo(a: int, b: int, width: int)
    requires a <= b && 0 <= width
    ensures a * width <= b * width
  {
    assert (b - a) * width >= 0;
  }

  lemma IndexInMask(width: int, height: int, row: nat, col: nat)
    requires row < height && col < width
    ensures 0 <= row * width + col < width * height
  {
    RowsUpTo(0, row, width);
    RowsUpTo(row + 1, height, width);
  }

  datatype Reading = Outside | Bit(covered: bool) | Malformed

  method PatchCellCovered(patch: Patch, x: int, y: int) returns (r: Reading)
    ensures r.Outside? <==> !patch.Bounds().Has(x, y)
    ensures forall covered {:trigger Shows(patch, covered)} :: Shows(patch, covered) && patch.Bounds().Has(x, y) ==>
            r == Bit(covered(x, y))
  {
    if x < patch.originX || y < patch.originY { return Outside; }
    var col := x - patch.originX;
    var row := y - patch.originY;
    if col >= patch.width || row >= patch.height { return Outside; }
    var d := DecodePatchCoverage(patch);
    match d {
      case Cells(cells) =>
        IndexInMask(patch.width, patch.height, row, col);
        forall covered | Shows(patch, covered) ensures cells[row * patch.width + col] == covered(x, y) {
          assert CellAt(Expand(patch.runs), patch.width, row, col) <==>
                 covered(patch.originX + col, patch.originY + row);
        }
        return Bit(cells[row * patch.width + col]);
      case NegativeLength(_) => return Malformed;
      case WrongSize(_) => return Malformed;
    }
  }

  // --- building a patch ---------------------------------------------------------------------

  /** What `BuildPatch` knows in row `row` before column `col`. */
  ghost predicate Filled(box: Box, covered: (int, int) -> bool, cells: seq<bool>, rows: nat, cols: nat) {
    var width := box.maxX - box.minX + 1;
    && width > 0 && cols <= width && |cells| == rows * width + cols
    && forall row: nat, col: nat {:trigger CellAt(cells, width, row, col)} ::
         col < width && (row < rows || (row == rows && col < cols)) ==>
         (CellAt(cells, width, row, col) <==> covered(box.minX + col, box.minY + row))
  }

  lemma FillNext(box: Box, covered: (int, int) -> bool, cells: seq<bool>, rows: nat, cols: nat)
    requires Filled(box, covered, cells, rows, cols) && cols < box.maxX - box.minX + 1
    ensures Filled(box, covered, cells + [covered(box.minX + cols, box.minY + rows)], rows, cols + 1)
  {
    var width := box.maxX - box.minX + 1;
    var after := cells + [covered(box.minX + cols, box.minY + rows)];
    forall row: nat, col: nat | col < width && (row < rows || (row == rows && col < cols + 1))
      ensures CellAt(after, width, row, col) <==> covered(box.minX + col, box.minY + row)
    {
      RowsBefore(width, row, col, rows, cols);
      if row < rows || col < cols {
        assert CellAt(cells, width, row, col) <==> covered(box.minX + col, box.minY + row);
      }
    }
  }

  lemma RowsBefore(width: int, row: nat, col: nat, rows: nat, cols: nat)
    requires col < width && (row < rows || (row == rows && col <= cols))
    ensures row < rows || col < cols ==> row * width + col < rows * width + cols
    ensures 0 <= row * width + col
  {
    RowsUpTo(0, row, width);
    if row < rows { RowsUpTo(row + 1, rows, width); }
  }

  lemma RowDone(box: Box, covered: (int, int) -> bool, cells: seq<bool>, rows: nat)
    requires box.minX <= box.maxX && Filled(box, covered, cells, rows, box.maxX - box.minX + 1)
    ensures Filled(box, covered, cells, rows + 1, 0)
  {
    var width := box.maxX - box.minX + 1;
    assert (rows + 1) * width == rows * width + width;
    forall row: nat, col: nat | col < width && row < rows + 1 ensures CellAt(cells, width, row, col) <==>
        covered(box.minX + col, box.minY + row) {
      assert CellAt(cells, width, row, col) <==> covered(box.minX + col, box.minY + row);
    }
  }

  function Definition(fog: Fog, hook: RangeHook, origins: seq<Origin>, nebulas: seq<Nebula>): (int, int) -> bool {
    (x: int, y: int) => CellCovered(fog, hook, origins, nebulas, x, y)
  }

  /** The patch of one box, or none for a box without cells. */
  method BuildPatch(box: Box, fog: Fog, hook: RangeHook, origins: seq<Origin>, nebulas: seq<Nebula>)
          returns (p: Option<Patch>)
    ensures p.None? <==> !box.Valid()
    ensures p.Some? ==> p.value.Bounds() == box && Shows(p.value, Definition(fog, hook, origins, nebulas))
  {
    hide CellCovered;
    var width, height := box.maxX - box.minX + 1, box.maxY - box.minY + 1;
    if width <= 0 || height <= 0 { return None; }
    ghost var covered := Definition(fog, hook, origins, nebulas);
    var cells: seq<bool> := [];
    var row := 0;
    while row < height
      invariant 0 <= row <= height && Filled(box, covered, cells, row, 0)
    {
      var col := 0;
      while col < width
        invariant 0 <= col <= width && Filled(box, covered, cells, row, col)
      {
        var bit := CoverCell(fog, hook, origins, nebulas, box.minX + col, box.minY + row);
        FillNext(box, covered, cells, row, col);
        hide Filled;
        cells := cells + [bit];
        col := col + 1;
      }
      RowDone(box, covered, cells, row);
      row := row + 1;
    }
    var runs := EncodeCoverageRle(cells);
    var patch := Patch(box.minX, box.minY, width, height, runs);
    assert height * width == width * height;
    forall r: nat, c: nat | r < height && c < width ensures CellAt(Expand(runs), width, r, c) <==>
        covered(box.minX + c, box.minY + r) {
      assert CellAt(cells, width, r, c) <==> covered(box.minX + c, box.minY + r);
    }
    return Some(patch);
  }
}
