/**
 * The three background patterns of the notes panel (`draw_lines`,
 * `draw_squares`, `draw_dotted_lines`) as loops that append primitives to a
 * page, each proved to append exactly what a pure specification function
 * lists; the lemmas state where those primitives lie.
 *
 * Coordinates are exact reals; Python's `int()` on a coordinate is `Trunc`.
 */
module Patterns {
  import opened Geometry

  /** Python's `int(x)` for a float: truncation toward zero. */
  function Trunc(x: real): int {
    if x >= 0.0 then x.Floor else -((-x).Floor)
  }

  function Max0(n: int): nat { if n < 0 then 0 else n }

  function Ceil(q: real): int {
    if q.Floor as real == q then q.Floor else q.Floor + 1
  }

  /** How many steps k >= 0 satisfy `start + k * step < limit`. */
  function CountBelow(start: real, limit: real, step: real): nat
    requires step > 0.0
  {
    if limit <= start then 0 else Max0(Ceil((limit - start) / step))
  }

  /** How many steps k >= 0 satisfy `start + k * step <= limit`. */
  function CountAtMost(start: real, limit: real, step: real): nat
    requires step > 0.0
  {
    if limit < start then 0 else Max0(((limit - start) / step).Floor + 1)
  }

  lemma ScaleStrict(a: real, b: real, step: real)
    requires step > 0.0
    ensures a < b <==> a * step < b * step
    ensures a <= b <==> a * step <= b * step
  {
    assert b * step - a * step == (b - a) * step;
    if a < b {
      assert (b - a) * step > 0.0;
    } else {
      assert (a - b) * step >= 0.0;
    }
  }

  lemma DivThenScale(x: real, step: real)
    requires step > 0.0
    ensures (x / step) * step == x
  {
    var q := x / step;
    assert q * step == x;
  }

  lemma StepOnce(start: real, k: nat, step: real)
    ensures start + (k + 1) as real * step == start + k as real * step + step
  {
  }

  lemma CeilAbove(q: real, k: int)
    ensures k < Ceil(q) <==> (k as real) < q
  {
    var f := q.Floor;
    assert f as real <= q < f as real + 1.0;
  }

  /** `CountBelow` counts exactly the steps that stay strictly below the limit. */
  lemma CountBelowExact(start: real, limit: real, step: real, k: nat)
    requires step > 0.0
    ensures start + k as real * step < limit <==> k < CountBelow(start, limit, step)
  {
    ScaleStrict(0.0, k as real, step);
    if start < limit {
      var q := (limit - start) / step;
      DivThenScale(limit - start, step);
      StepsBelow(limit - start, step, q, k);
    }
  }

  /** With q * step == len > 0, step k stays below len exactly when k < Ceil(q), and Ceil(q) >= 1. */
  lemma StepsBelow(len: real, step: real, q: real, k: nat)
    requires step > 0.0 && len > 0.0 && q * step == len
    ensures Ceil(q) >= 1
    ensures k as real * step < len <==> k < Ceil(q)
  {
    ScaleStrict(0.0, q, step);
    CeilAbove(q, 0);
    CeilAbove(q, k);
    ScaleStrict(k as real, q, step);
  }

  /** `CountAtMost` counts exactly the steps that do not pass the limit. */
  lemma CountAtMostExact(start: real, limit: real, step: real, k: nat)
    requires step > 0.0
    ensures start + k as real * step <= limit <==> k < CountAtMost(start, limit, step)
  {
    var q := (limit - start) / step;
    DivThenScale(limit - start, step);
    ScaleStrict(k as real, q, step);
    ScaleStrict(0.0, k as real, step);
  }

  // ---------------------------------------------------------------- Lined

  /** The y of the k-th ruled line: the first sits three spacings below the top. */
  function LineY(rect: Rect, spacing: real, k: nat): real {
    rect.y0 + spacing * 3.0 + k as real * spacing
  }

  function RuledLine(rect: Rect, colour: Rgb, spacing: real, k: nat): Primitive {
    var y := LineY(rect, spacing, k);
    Line(Point(rect.x0 + spacing, y), Point(rect.x1 - spacing, y), colour, 1.0)
  }

  /** Lines the `while` loop draws: those above the one-spacing bottom margin. */
  function LoopLineCount(rect: Rect, spacing: real): nat
    requires spacing > 0.0
  {
    CountBelow(rect.y0 + spacing * 3.0, rect.y1 - spacing, spacing)
  }

  /** The loop's lines plus the final line when the gap left is at least half a spacing. */
  function LineCount(rect: Rect, spacing: real): nat
    requires spacing > 0.0
  {
    var n := LoopLineCount(rect, spacing);
    if LineY(rect, spacing, n) < rect.y1 - spacing / 2.0 then n + 1 else n
  }

  /** Everything `draw_lines` draws, top to bottom. */
  function LinedPattern(rect: Rect, colour: Rgb, spacing: real): seq<Primitive>
    requires spacing > 0.0
  {
    seq(LineCount(rect, spacing), k requires 0 <= k => RuledLine(rect, colour, spacing, k))
  }

  /**
   * The ruled lines start three spacings below the top, are one spacing apart
   * and span the panel less one spacing at each side; every one is above
   * `y1 - spacing/2`, all but the last are above `y1 - spacing`, and one more
   * line would cross `y1 - spacing/2`: no room is left unused.
   */
  lemma {:induction false} LinedMargins(rect: Rect, colour: Rgb, spacing: real)
    requires spacing > 0.0
    ensures var p := LinedPattern(rect, colour, spacing);
      && (forall k :: 0 <= k < |p| ==>
            p[k] == Line(Point(rect.x0 + spacing, LineY(rect, spacing, k)),
                         Point(rect.x1 - spacing, LineY(rect, spacing, k)), colour, 1.0)
            && LineY(rect, spacing, k) < rect.y1 - spacing / 2.0)
      && (forall k :: 0 <= k < |p| - 1 ==> LineY(rect, spacing, k) < rect.y1 - spacing)
      && LineY(rect, spacing, |p|) >= rect.y1 - spacing / 2.0
  {
    var p := LinedPattern(rect, colour, spacing);
    var n := LoopLineCount(rect, spacing);
    var start := rect.y0 + spacing * 3.0;
    forall k | 0 <= k <= n
      ensures k < n <==> LineY(rect, spacing, k) < rect.y1 - spacing
    {
      CountBelowExact(start, rect.y1 - spacing, spacing, k);
    }
    assert LineY(rect, spacing, n + 1) == LineY(rect, spacing, n) + spacing;
  }

  /** The loop ends exactly after `LoopLineCount` lines. */
  lemma LoopLineBound(rect: Rect, spacing: real, k: nat)
    requires spacing > 0.0
    ensures LineY(rect, spacing, k) < rect.y1 - spacing <==> k < LoopLineCount(rect, spacing)
  {
    CountBelowExact(rect.y0 + spacing * 3.0, rect.y1 - spacing, spacing, k);
  }

  /** The `while` loop of `draw_lines`: rules every line above the bottom margin and returns the next y. */
  method RuleAboveMargin(page: Canvas, rect: Rect, colour: Rgb, spacing: real) returns (y: real)
    requires spacing > 0.0
    modifies page`ops
    ensures y == LineY(rect, spacing, LoopLineCount(rect, spacing))
    ensures page.ops == old(page.ops) + seq(LoopLineCount(rect, spacing), k requires 0 <= k => RuledLine(rect, colour, spacing, k))
  {
    y := rect.y0 + spacing * 3.0;
    ghost var k: nat := 0;
    ghost var n := LoopLineCount(rect, spacing);
    while y < rect.y1 - spacing
      invariant y == LineY(rect, spacing, k)
      invariant k <= n
      invariant page.ops == old(page.ops) + seq(k, i requires 0 <= i => RuledLine(rect, colour, spacing, i))
      decreases n - k
    {
      LoopLineBound(rect, spacing, k);
      page.DrawLine(Point(rect.x0 + spacing, y), Point(rect.x1 - spacing, y), colour, 1.0);
      assert seq(k + 1, i requires 0 <= i => RuledLine(rect, colour, spacing, i))
          == seq(k, i requires 0 <= i => RuledLine(rect, colour, spacing, i)) + [RuledLine(rect, colour, spacing, k)];
      StepOnce(rect.y0 + spacing * 3.0, k, spacing);
      y := y + spacing;
      k := k + 1;
    }
    LoopLineBound(rect, spacing, k);
  }

  /** `draw_lines(page, rect, color, spacing)`. */
  method DrawLines(page: Canvas, rect: Rect, colour: Rgb, spacing: real)
    requires spacing > 0.0
    modifies page`ops
    ensures page.ops == old(page.ops) + LinedPattern(rect, colour, spacing)
  {
    var y := RuleAboveMargin(page, rect, colour, spacing);
    ghost var n := LoopLineCount(rect, spacing);
    ghost var pattern := LinedPattern(rect, colour, spacing);
    ghost var ruled := seq(n, k requires 0 <= k => RuledLine(rect, colour, spacing, k));
    if y < rect.y1 - spacing / 2.0 {
      page.DrawLine(Point(rect.x0 + spacing, y), Point(rect.x1 - spacing, y), colour, 1.0);
      assert pattern == ruled + [RuledLine(rect, colour, spacing, n)];
    } else {
      assert pattern == ruled;
    }
  }

  // ---------------------------------------------------------------- Grid

  /** `int((rect.width - 2 * spacing) / spacing)`: the number of columns. */
  function GridColumns(rect: Rect, spacing: real): int
    requires spacing != 0.0
  {
    Trunc((Width(rect) - 2.0 * spacing) / spacing)
  }

  /** `int((rect.height - 4 * spacing) / spacing)`: the number of rows. */
  function GridRows(rect: Rect, spacing: real): int
    requires spacing != 0.0
  {
    Trunc((Height(rect) - 4.0 * spacing) / spacing)
  }

  /** Left edge of column i and top edge of row j of the grid. */
  function SquareX(rect: Rect, spacing: real, i: nat): real {
    rect.x0 + spacing + i as real * spacing
  }

  function SquareY(rect: Rect, spacing: real, j: nat): real {
    rect.y0 + spacing * 3.0 + j as real * spacing
  }

  /** The square of column i, row j: side `spacing`, from one spacing in and three down. */
  function GridSquare(rect: Rect, colour: Rgb, spacing: real, i: nat, j: nat): Primitive {
    var x := SquareX(rect, spacing, i);
    var y := SquareY(rect, spacing, j);
    Rectangle(Rect(x, y, x + spacing, y + spacing), colour, None, 1.0)
  }

  /** The first `rows` squares of column i, top to bottom. */
  function GridColumn(rect: Rect, colour: Rgb, spacing: real, i: nat, rows: nat): seq<Primitive> {
    seq(rows, j requires 0 <= j => GridSquare(rect, colour, spacing, i, j))
  }

  /** Columns 0 .. cols-1, column after column, as the nested loops draw them. */
  function GridUpTo(rect: Rect, colour: Rgb, spacing: real, cols: nat, rows: nat): seq<Primitive> {
    if cols == 0 then []
    else GridUpTo(rect, colour, spacing, cols - 1, rows) + GridColumn(rect, colour, spacing, cols - 1, rows)
  }

  /** Everything `draw_squares` draws. */
  function GridPattern(rect: Rect, colour: Rgb, spacing: real): seq<Primitive>
    requires spacing != 0.0
  {
    GridUpTo(rect, colour, spacing, Max0(GridColumns(rect, spacing)), Max0(GridRows(rect, spacing)))
  }

  lemma {:induction false} GridUpToCount(rect: Rect, colour: Rgb, spacing: real, cols: nat, rows: nat)
    ensures |GridUpTo(rect, colour, spacing, cols, rows)| == cols * rows
  {
    if cols > 0 {
      GridUpToCount(rect, colour, spacing, cols - 1, rows);
      assert (cols - 1) * rows + rows == cols * rows;
    }
  }

  lemma {:induction false} GridUpToMembers(rect: Rect, colour: Rgb, spacing: real, cols: nat, rows: nat, q: Primitive)
    ensures q in GridUpTo(rect, colour, spacing, cols, rows)
      <==> exists i: nat, j: nat :: i < cols && j < rows && q == GridSquare(rect, colour, spacing, i, j)
  {
    if cols > 0 {
      GridUpToMembers(rect, colour, spacing, cols - 1, rows, q);
      var column := GridColumn(rect, colour, spacing, cols - 1, rows);
      if q in column {
        var j :| 0 <= j < rows && column[j] == q;
        assert q == GridSquare(rect, colour, spacing, cols - 1, j);
      }
      if exists i: nat, j: nat :: i < cols && j < rows && q == GridSquare(rect, colour, spacing, i, j) {
        var i: nat, j: nat :| i < cols && j < rows && q == GridSquare(rect, colour, spacing, i, j);
        if i == cols - 1 {
          assert column[j] == q;
        }
      }
    }
  }

  /** Exactly max(0, columns) * max(0, rows) squares are drawn. */
  lemma GridCount(rect: Rect, colour: Rgb, spacing: real)
    requires spacing != 0.0
    ensures |GridPattern(rect, colour, spacing)|
         == Max0(GridColumns(rect, spacing)) * Max0(GridRows(rect, spacing))
  {
    GridUpToCount(rect, colour, spacing, Max0(GridColumns(rect, spacing)), Max0(GridRows(rect, spacing)));
  }

  /** Counting n = Trunc((len - k*s)/s) steps, step i < n still ends no further than len - k*s. */
  lemma TruncStepsFit(len: real, k: real, spacing: real, i: nat)
    requires spacing > 0.0
    requires i < Trunc((len - k * spacing) / spacing)
    ensures 0.0 <= i as real * spacing
    ensures i as real * spacing + spacing <= len - k * spacing
  {
    var q := (len - k * spacing) / spacing;
    assert (i + 1) as real <= q;
    DivThenScale(len - k * spacing, spacing);
    ScaleStrict((i + 1) as real, q, spacing);
    ScaleStrict(0.0, i as real, spacing);
    StepOnce(0.0, i, spacing);
  }

  predicate InsideBox(r: Rect, left: real, top: real, right: real, bottom: real) {
    left <= r.x0 && r.x1 <= right && top <= r.y0 && r.y1 <= bottom
  }

  lemma SquareInside(rect: Rect, colour: Rgb, spacing: real, i: nat, j: nat)
    requires spacing > 0.0
    requires i < GridColumns(rect, spacing) && j < GridRows(rect, spacing)
    ensures var q := GridSquare(rect, colour, spacing, i, j);
      InsideBox(q.area, rect.x0 + spacing, rect.y0 + 3.0 * spacing, rect.x1 - spacing, rect.y1 - spacing)
  {
    TruncStepsFit(Width(rect), 2.0, spacing, i);
    TruncStepsFit(Height(rect), 4.0, spacing, j);
  }

  /**
   * Every grid square is an unfilled square of side `spacing` inside the
   * interior [x0+s, x1-s] x [y0+3s, y1-s]: no right or bottom edge passes the margin.
   */
  lemma GridInside(rect: Rect, colour: Rgb, spacing: real, q: Primitive)
    requires spacing > 0.0
    requires q in GridPattern(rect, colour, spacing)
    ensures q.Rectangle? && q.fill == None && q.stroke == colour
    ensures Width(q.area) == spacing && Height(q.area) == spacing
    ensures InsideBox(q.area, rect.x0 + spacing, rect.y0 + 3.0 * spacing, rect.x1 - spacing, rect.y1 - spacing)
  {
    var cols, rows := Max0(GridColumns(rect, spacing)), Max0(GridRows(rect, spacing));
    GridUpToMembers(rect, colour, spacing, cols, rows, q);
    var i: nat, j: nat :| i < cols && j < rows && q == GridSquare(rect, colour, spacing, i, j);
    SquareInside(rect, colour, spacing, i, j);
  }

  /** `draw_squares(page, rect, color, spacing)`. */
  method DrawSquares(page: Canvas, rect: Rect, colour: Rgb, spacing: real)
    requires spacing != 0.0
    modifies page`ops
    ensures page.ops == old(page.ops) + GridPattern(rect, colour, spacing)
  {
    var xStart := rect.x0 + spacing;
    var yStart := rect.y0 + spacing * 3.0;
    var numX := Trunc((Width(rect) - 2.0 * spacing) / spacing);
    var numY := Trunc((Height(rect) - 4.0 * spacing) / spacing);
    var i := 0;
    while i < numX
      invariant 0 <= i <= Max0(numX)
      invariant page.ops == old(page.ops) + GridUpTo(rect, colour, spacing, i, Max0(numY))
    {
      var j := 0;
      while j < numY
        invariant 0 <= j <= Max0(numY)
        invariant page.ops == old(page.ops) + GridUpTo(rect, colour, spacing, i, Max0(numY))
                                            + GridColumn(rect, colour, spacing, i, j)
      {
        var x := xStart + i as real * spacing;
        var y := yStart + j as real * spacing;
        page.DrawRect(Rect(x, y, x + spacing, y + spacing), colour, None, 1.0);
        assert GridColumn(rect, colour, spacing, i, j + 1)
            == GridColumn(rect, colour, spacing, i, j) + [GridSquare(rect, colour, spacing, i, j)];
        j := j + 1;
      }
      i := i + 1;
    }
  }

  // ---------------------------------------------------------------- Dotted

  /** The integer bounds `draw_dotted_lines` computes with `int()`. */
  datatype DotFrame = DotFrame(xStart: int, xEnd: int, yStart: int, yEnd: int)

  function Frame(rect: Rect, spacing: real): DotFrame {
    DotFrame(Trunc(rect.x0 + spacing), Trunc(rect.x1 - spacing),
             Trunc(rect.y0 + spacing * 3.0), Trunc(rect.y1 - spacing))
  }

  /** `dot_radius = 1`. */
  const DotRadius: real := 1.0

  function Dot(x: real, y: real, colour: Rgb): Primitive {
    Circle(Point(x, y), DotRadius, colour, Some(colour))
  }

  /** Abscissa of lattice column i and ordinate of lattice row j. */
  function ColumnX(f: DotFrame, spacing: real, i: nat): real {
    f.xStart as real + i as real * spacing
  }

  function RowY(f: DotFrame, spacing: real, j: nat): real {
    f.yStart as real + j as real * spacing
  }

  /** The lattice dot of column i, row j. */
  function LatticeDot(f: DotFrame, colour: Rgb, spacing: real, i: nat, j: nat): Primitive {
    Dot(ColumnX(f, spacing, i), RowY(f, spacing, j), colour)
  }

  /** Columns the inner loop visits: x from xStart while x <= xEnd. */
  function DotColumns(f: DotFrame, spacing: real): nat
    requires spacing > 0.0
  {
    CountAtMost(f.xStart as real, f.xEnd as real, spacing)
  }

  /** Rows the outer loop visits: y from yStart while y <= yEnd. */
  function DotRows(f: DotFrame, spacing: real): nat
    requires spacing > 0.0
  {
    CountAtMost(f.yStart as real, f.yEnd as real, spacing)
  }

  lemma ColumnBound(f: DotFrame, spacing: real, i: nat)
    requires spacing > 0.0
    ensures ColumnX(f, spacing, i) <= f.xEnd as real <==> i < DotColumns(f, spacing)
    ensures f.xStart as real <= ColumnX(f, spacing, i)
  {
    CountAtMostExact(f.xStart as real, f.xEnd as real, spacing, i);
    ScaleStrict(0.0, i as real, spacing);
  }

  lemma RowBound(f: DotFrame, spacing: real, j: nat)
    requires spacing > 0.0
    ensures RowY(f, spacing, j) <= f.yEnd as real <==> j < DotRows(f, spacing)
    ensures f.yStart as real <= RowY(f, spacing, j)
  {
    CountAtMostExact(f.yStart as real, f.yEnd as real, spacing, j);
    ScaleStrict(0.0, j as real, spacing);
  }

  /** Dots at abscissa x on every lattice row: one column drawn by a `while y <= y_end` loop. */
  function EdgeColumn(f: DotFrame, colour: Rgb, spacing: real, x: real): seq<Primitive>
    requires spacing > 0.0
  {
    seq(DotRows(f, spacing), j requires 0 <= j => Dot(x, RowY(f, spacing, j), colour))
  }

  /** Dots at ordinate y on every lattice column: one row drawn by a `while x <= x_end` loop. */
  function EdgeRow(f: DotFrame, colour: Rgb, spacing: real, y: real): seq<Primitive>
    requires spacing > 0.0
  {
    seq(DotColumns(f, spacing), i requires 0 <= i => Dot(ColumnX(f, spacing, i), y, colour))
  }

  /** Rows 0 .. rows-1 of the lattice, row after row, left to right within a row. */
  function LatticeUpTo(f: DotFrame, colour: Rgb, spacing: real, rows: nat): seq<Primitive>
    requires spacing > 0.0
  {
    if rows == 0 then []
    else LatticeUpTo(f, colour, spacing, rows - 1) + EdgeRow(f, colour, spacing, RowY(f, spacing, rows - 1))
  }

  /** Everything the lattice loops draw (all of processor.py's `draw_dotted_lines`). */
  function DotLattice(rect: Rect, colour: Rgb, spacing: real): seq<Primitive>
    requires spacing > 0.0
  {
    var f := Frame(rect, spacing);
    LatticeUpTo(f, colour, spacing, DotRows(f, spacing))
  }

  lemma {:induction false} LatticeUpToMembers(f: DotFrame, colour: Rgb, spacing: real, rows: nat, q: Primitive)
    requires spacing > 0.0
    ensures q in LatticeUpTo(f, colour, spacing, rows)
      <==> exists i: nat, j: nat :: i < DotColumns(f, spacing) && j < rows && q == LatticeDot(f, colour, spacing, i, j)
  {
    if rows > 0 {
      LatticeUpToMembers(f, colour, spacing, rows - 1, q);
      var row := EdgeRow(f, colour, spacing, RowY(f, spacing, rows - 1));
      if q in row {
        var i :| 0 <= i < |row| && row[i] == q;
        assert q == LatticeDot(f, colour, spacing, i, rows - 1);
      }
      if exists i: nat, j: nat :: i < DotColumns(f, spacing) && j < rows && q == LatticeDot(f, colour, spacing, i, j) {
        var i: nat, j: nat :| i < DotColumns(f, spacing) && j < rows && q == LatticeDot(f, colour, spacing, i, j);
        if j == rows - 1 {
          assert row[i] == q;
        }
      }
    }
  }

  lemma {:induction false} LatticeUpToCount(f: DotFrame, colour: Rgb, spacing: real, rows: nat)
    requires spacing > 0.0
    ensures |LatticeUpTo(f, colour, spacing, rows)| == rows * DotColumns(f, spacing)
  {
    if rows > 0 {
      LatticeUpToCount(f, colour, spacing, rows - 1);
      assert (rows - 1) * DotColumns(f, spacing) + DotColumns(f, spacing) == rows * DotColumns(f, spacing);
    }
  }

  /**
   * The lattice holds exactly the dots (xStart + i*s, yStart + j*s) that do
   * not pass (xEnd, yEnd), one per lattice point.
   */
  lemma LatticeExactly(rect: Rect, colour: Rgb, spacing: real, q: Primitive)
    requires spacing > 0.0
    ensures var f := Frame(rect, spacing);
      && |DotLattice(rect, colour, spacing)| == DotRows(f, spacing) * DotColumns(f, spacing)
      && (q in DotLattice(rect, colour, spacing)
          <==> exists i: nat, j: nat ::
                 && ColumnX(f, spacing, i) <= f.xEnd as real
                 && RowY(f, spacing, j) <= f.yEnd as real
                 && q == LatticeDot(f, colour, spacing, i, j))
  {
    var f := Frame(rect, spacing);
    LatticeUpToCount(f, colour, spacing, DotRows(f, spacing));
    LatticeUpToMembers(f, colour, spacing, DotRows(f, spacing), q);
    forall i: nat ensures ColumnX(f, spacing, i) <= f.xEnd as real <==> i < DotColumns(f, spacing) {
      ColumnBound(f, spacing, i);
    }
    forall j: nat ensures RowY(f, spacing, j) <= f.yEnd as real <==> j < DotRows(f, spacing) {
      RowBound(f, spacing, j);
    }
  }

  /** Every lattice dot is a filled dot of radius 1 whose centre lies in [xStart, xEnd] x [yStart, yEnd]. */
  lemma LatticeInside(rect: Rect, colour: Rgb, spacing: real, q: Primitive)
    requires spacing > 0.0
    requires q in DotLattice(rect, colour, spacing)
    ensures var f := Frame(rect, spacing);
      && q.Circle? && q == Dot(q.centre.x, q.centre.y, colour)
      && f.xStart as real <= q.centre.x <= f.xEnd as real
      && f.yStart as real <= q.centre.y <= f.yEnd as real
  {
    var f := Frame(rect, spacing);
    LatticeUpToMembers(f, colour, spacing, DotRows(f, spacing), q);
    var i: nat, j: nat :| i < DotColumns(f, spacing) && j < DotRows(f, spacing) && q == LatticeDot(f, colour, spacing, i, j);
    ColumnBound(f, spacing, i);
    RowBound(f, spacing, j);
  }

  /** A row of dots at ordinate y, from xStart while x <= xEnd (the inner lattice loop). */
  method DrawDotRow(page: Canvas, f: DotFrame, colour: Rgb, spacing: real, y: real)
    requires spacing > 0.0
    modifies page`ops
    ensures page.ops == old(page.ops) + EdgeRow(f, colour, spacing, y)
  {
    var x := f.xStart as real;
    ghost var i: nat := 0;
    ghost var row := EdgeRow(f, colour, spacing, y);
    while x <= f.xEnd as real
      invariant x == ColumnX(f, spacing, i)
      invariant i <= DotColumns(f, spacing)
      invariant page.ops == old(page.ops) + row[..i]
      decreases DotColumns(f, spacing) - i
    {
      ColumnBound(f, spacing, i);
      page.DrawCircle(Point(x, y), DotRadius, colour, Some(colour));
      assert row[..i + 1] == row[..i] + [Dot(x, y, colour)];
      StepOnce(f.xStart as real, i, spacing);
      x := x + spacing;
      i := i + 1;
    }
    ColumnBound(f, spacing, i);
    assert row[..i] == row;
  }

  /** A column of dots at abscissa x, from yStart while y <= yEnd. */
  method DrawDotColumn(page: Canvas, f: DotFrame, colour: Rgb, spacing: real, x: real)
    requires spacing > 0.0
    modifies page`ops
    ensures page.ops == old(page.ops) + EdgeColumn(f, colour, spacing, x)
  {
    var y := f.yStart as real;
    ghost var j: nat := 0;
    ghost var column := EdgeColumn(f, colour, spacing, x);
    while y <= f.yEnd as real
      invariant y == RowY(f, spacing, j)
      invariant j <= DotRows(f, spacing)
      invariant page.ops == old(page.ops) + column[..j]
      decreases DotRows(f, spacing) - j
    {
      RowBound(f, spacing, j);
      page.DrawCircle(Point(x, y), DotRadius, colour, Some(colour));
      assert column[..j + 1] == column[..j] + [Dot(x, y, colour)];
      StepOnce(f.yStart as real, j, spacing);
      y := y + spacing;
      j := j + 1;
    }
    RowBound(f, spacing, j);
    assert column[..j] == column;
  }

  /** The nested lattice loops shared by both editions of `draw_dotted_lines`. */
  method DrawDotLattice(page: Canvas, rect: Rect, colour: Rgb, spacing: real)
    requires spacing > 0.0
    modifies page`ops
    ensures page.ops == old(page.ops) + DotLattice(rect, colour, spacing)
  {
    var f := Frame(rect, spacing);
    var y := f.yStart as real;
    ghost var j: nat := 0;
    while y <= f.yEnd as real
      invariant y == RowY(f, spacing, j)
      invariant j <= DotRows(f, spacing)
      invariant page.ops == old(page.ops) + LatticeUpTo(f, colour, spacing, j)
      decreases DotRows(f, spacing) - j
    {
      RowBound(f, spacing, j);
      DrawDotRow(page, f, colour, spacing, y);
      StepOnce(f.yStart as real, j, spacing);
      y := y + spacing;
      j := j + 1;
    }
    RowBound(f, spacing, j);
  }

  /** processor.py's `draw_dotted_lines`: the lattice and nothing else. */
  method DrawDottedLines(page: Canvas, rect: Rect, colour: Rgb, spacing: real)
    requires spacing > 0.0
    modifies page`ops
    ensures page.ops == old(page.ops) + DotLattice(rect, colour, spacing)
  {
    DrawDotLattice(page, rect, colour, spacing);
  }

  // ------------------------------------------- main.py's supplemental edge dots

  /** The lattice, then an edge column at xEnd, an edge row at yEnd and a corner dot, each when its guard holds. */
  function LatticeWithEdges(rect: Rect, colour: Rgb, spacing: real, column: bool, row: bool): seq<Primitive>
    requires spacing > 0.0
  {
    var f := Frame(rect, spacing);
    DotLattice(rect, colour, spacing)
      + (if column then EdgeColumn(f, colour, spacing, f.xEnd as real) else [])
      + (if row then EdgeRow(f, colour, spacing, f.yEnd as real) else [])
      + (if column && row then [Dot(f.xEnd as real, f.yEnd as real, colour)] else [])
  }

  /** The drawing steps of main.py's `draw_dotted_lines`, its two guards given as flags. */
  method DrawLatticeWithEdges(page: Canvas, rect: Rect, colour: Rgb, spacing: real, column: bool, row: bool)
    requires spacing > 0.0
    modifies page`ops
    ensures page.ops == old(page.ops) + LatticeWithEdges(rect, colour, spacing, column, row)
  {
    var f := Frame(rect, spacing);
    DrawDotLattice(page, rect, colour, spacing);
    if column {
      DrawDotColumn(page, f, colour, spacing, f.xEnd as real);
    }
    if row {
      DrawDotRow(page, f, colour, spacing, f.yEnd as real);
    }
    if column && row {
      page.DrawCircle(Point(f.xEnd as real, f.yEnd as real), DotRadius, colour, Some(colour));
    }
  }

  /** main.py's guard for the extra column: `x_end + spacing <= rect.x1 - dot_radius`. */
  predicate ColumnGuardAsWritten(rect: Rect, spacing: real) {
    Frame(rect, spacing).xEnd as real + spacing <= rect.x1 - DotRadius
  }

  /** main.py's guard for the extra row: `y_end + spacing <= rect.y1 - dot_radius`. */
  predicate RowGuardAsWritten(rect: Rect, spacing: real) {
    Frame(rect, spacing).yEnd as real + spacing <= rect.y1 - DotRadius
  }

  /** main.py's `draw_dotted_lines` as written. */
  function DottedAsWritten(rect: Rect, colour: Rgb, spacing: real): seq<Primitive>
    requires spacing > 0.0
  {
    LatticeWithEdges(rect, colour, spacing, ColumnGuardAsWritten(rect, spacing), RowGuardAsWritten(rect, spacing))
  }

  /**
   * The supplemental guards can never hold: `int(v) > v - 1`, so
   * `int(x1 - s) + s > x1 - 1` for every rectangle and spacing. main.py's
   * edge dots are never drawn and its dotted pattern is just the lattice.
   */
  lemma EdgeGuardsNeverHold(rect: Rect, colour: Rgb, spacing: real)
    requires spacing > 0.0
    ensures !ColumnGuardAsWritten(rect, spacing) && !RowGuardAsWritten(rect, spacing)
    ensures DottedAsWritten(rect, colour, spacing) == DotLattice(rect, colour, spacing)
  {
  }

  /** main.py's `draw_dotted_lines`, guards as written. */
  method DrawDottedWithEdges(page: Canvas, rect: Rect, colour: Rgb, spacing: real)
    requires spacing > 0.0
    modifies page`ops
    ensures page.ops == old(page.ops) + DottedAsWritten(rect, colour, spacing)
  {
    var dotRadius := 1.0;
    var f := Frame(rect, spacing);
    var column := f.xEnd as real + spacing <= rect.x1 - dotRadius;
    var row := f.yEnd as real + spacing <= rect.y1 - dotRadius;
    DrawLatticeWithEdges(page, rect, colour, spacing, column, row);
  }

  /** Intended guard: the lattice's last column stops short of xEnd. */
  predicate ColumnFallsShort(rect: Rect, spacing: real)
    requires spacing > 0.0
  {
    var f := Frame(rect, spacing);
    var cols := DotColumns(f, spacing);
    cols > 0 && ColumnX(f, spacing, cols - 1) < f.xEnd as real
  }

  /** Intended guard: the lattice's last row stops short of yEnd. */
  predicate RowFallsShort(rect: Rect, spacing: real)
    requires spacing > 0.0
  {
    var f := Frame(rect, spacing);
    var rows := DotRows(f, spacing);
    rows > 0 && RowY(f, spacing, rows - 1) < f.yEnd as real
  }

  /** The dotted pattern with the edge dots main.py meant to add. */
  function DottedToEdges(rect: Rect, colour: Rgb, spacing: real): seq<Primitive>
    requires spacing > 0.0
  {
    LatticeWithEdges(rect, colour, spacing, ColumnFallsShort(rect, spacing), RowFallsShort(rect, spacing))
  }

  /** main.py's `draw_dotted_lines` with the intended guards. */
  method DrawDottedToEdges(page: Canvas, rect: Rect, colour: Rgb, spacing: real)
    requires spacing > 0.0
    modifies page`ops
    ensures page.ops == old(page.ops) + DottedToEdges(rect, colour, spacing)
  {
    var column := ColumnFallsShort(rect, spacing);
    var row := RowFallsShort(rect, spacing);
    DrawLatticeWithEdges(page, rect, colour, spacing, column, row);
  }

  /** With the intended guards, a lattice that is not empty has a dot at xEnd on every lattice row. */
  lemma {:induction false} DottedReachesRightEdge(rect: Rect, colour: Rgb, spacing: real, j: nat)
    requires spacing > 0.0
    requires var f := Frame(rect, spacing); DotColumns(f, spacing) > 0 && j < DotRows(f, spacing)
    ensures var f := Frame(rect, spacing);
      Dot(f.xEnd as real, RowY(f, spacing, j), colour) in DottedToEdges(rect, colour, spacing)
  {
    var f := Frame(rect, spacing);
    var cols := DotColumns(f, spacing);
    var p := DottedToEdges(rect, colour, spacing);
    var lattice := DotLattice(rect, colour, spacing);
    assert lattice <= p;
    if ColumnFallsShort(rect, spacing) {
      var column := EdgeColumn(f, colour, spacing, f.xEnd as real);
      assert column[j] == Dot(f.xEnd as real, RowY(f, spacing, j), colour);
      assert p == lattice + column + (if RowFallsShort(rect, spacing) then EdgeRow(f, colour, spacing, f.yEnd as real) else [])
                + (if RowFallsShort(rect, spacing) then [Dot(f.xEnd as real, f.yEnd as real, colour)] else []);
    } else {
      ColumnBound(f, spacing, cols - 1);
      assert ColumnX(f, spacing, cols - 1) == f.xEnd as real;
      LatticeUpToMembers(f, colour, spacing, DotRows(f, spacing), LatticeDot(f, colour, spacing, cols - 1, j));
    }
  }

  /** With the intended guards, a lattice that is not empty has a dot at yEnd on every lattice column. */
  lemma {:induction false} DottedReachesBottomEdge(rect: Rect, colour: Rgb, spacing: real, i: nat)
    requires spacing > 0.0
    requires var f := Frame(rect, spacing); i < DotColumns(f, spacing) && DotRows(f, spacing) > 0
    ensures var f := Frame(rect, spacing);
      Dot(ColumnX(f, spacing, i), f.yEnd as real, colour) in DottedToEdges(rect, colour, spacing)
  {
    var f := Frame(rect, spacing);
    var rows := DotRows(f, spacing);
    var p := DottedToEdges(rect, colour, spacing);
    var lattice := DotLattice(rect, colour, spacing);
    var column := if ColumnFallsShort(rect, spacing) then EdgeColumn(f, colour, spacing, f.xEnd as real) else [];
    assert lattice <= p;
    if RowFallsShort(rect, spacing) {
      var row := EdgeRow(f, colour, spacing, f.yEnd as real);
      assert row[i] == Dot(ColumnX(f, spacing, i), f.yEnd as real, colour);
      assert p == lattice + column + row
                + (if ColumnFallsShort(rect, spacing) then [Dot(f.xEnd as real, f.yEnd as real, colour)] else []);
    } else {
      RowBound(f, spacing, rows - 1);
      assert RowY(f, spacing, rows - 1) == f.yEnd as real;
      LatticeUpToMembers(f, colour, spacing, rows, LatticeDot(f, colour, spacing, i, rows - 1));
    }
  }

  /** With the intended guards, a lattice that is not empty has a dot at (xEnd, yEnd). */
  lemma DottedReachesCorner(rect: Rect, colour: Rgb, spacing: real)
    requires spacing > 0.0
    requires var f := Frame(rect, spacing); DotColumns(f, spacing) > 0 && DotRows(f, spacing) > 0
    ensures var f := Frame(rect, spacing);
      Dot(f.xEnd as real, f.yEnd as real, colour) in DottedToEdges(rect, colour, spacing)
  {
    var f := Frame(rect, spacing);
    var cols, rows := DotColumns(f, spacing), DotRows(f, spacing);
    if ColumnFallsShort(rect, spacing) && RowFallsShort(rect, spacing) {
    } else if !RowFallsShort(rect, spacing) {
      RowBound(f, spacing, rows - 1);
      DottedReachesRightEdge(rect, colour, spacing, rows - 1);
    } else {
      ColumnBound(f, spacing, cols - 1);
      DottedReachesBottomEdge(rect, colour, spacing, cols - 1);
    }
  }

  /** With the intended guards every dot centre still lies in [xStart, xEnd] x [yStart, yEnd]. */
  lemma DottedToEdgesInside(rect: Rect, colour: Rgb, spacing: real, q: Primitive)
    requires spacing > 0.0
    requires q in DottedToEdges(rect, colour, spacing)
    ensures var f := Frame(rect, spacing);
      && q.Circle? && q == Dot(q.centre.x, q.centre.y, colour)
      && f.xStart as real <= q.centre.x <= f.xEnd as real
      && f.yStart as real <= q.centre.y <= f.yEnd as real
  {
    var f := Frame(rect, spacing);
    var xs, xe, ys, ye := f.xStart as real, f.xEnd as real, f.yStart as real, f.yEnd as real;
    var cols, rows := DotColumns(f, spacing), DotRows(f, spacing);
    var column, row := ColumnFallsShort(rect, spacing), RowFallsShort(rect, spacing);
    var c := if column then EdgeColumn(f, colour, spacing, xe) else [];
    var r := if row then EdgeRow(f, colour, spacing, ye) else [];
    var k := if column && row then [Dot(xe, ye, colour)] else [];
    var lattice := DotLattice(rect, colour, spacing);
    assert DottedToEdges(rect, colour, spacing) == lattice + c + r + k;
    if q in lattice {
      LatticeInside(rect, colour, spacing, q);
    } else if q in c {
      var j :| 0 <= j < |c| && c[j] == q;
      RowBound(f, spacing, j);
      ColumnBound(f, spacing, cols - 1);
    } else if q in r {
      var i :| 0 <= i < |r| && r[i] == q;
      ColumnBound(f, spacing, i);
      RowBound(f, spacing, rows - 1);
    } else {
      assert q in k;
      ColumnBound(f, spacing, cols - 1);
      RowBound(f, spacing, rows - 1);
    }
  }
}
