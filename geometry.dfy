/**
 * Floating-window geometry of the UI state (src/ui/state.rs): where a float is
 * placed relative to its anchor corner, and how far it must shrink to stay
 * inside the primary grid. The source computes in `f64`; here the arithmetic is
 * exact over `real`.
 */
module FloatGeometry {
  import opened Wrappers

  /** Cell dimensions come from font metrics and are always positive. */
  type Positive = r: real | r > 0.0 witness 1.0

  /** The anchor corner of a floating window. */
  datatype Anchor = NW | NE | SW | SE {
    predicate IsWest() { this == NW || this == SW }
    predicate IsNorth() { this == NW || this == NE }
  }

  /** Size of one cell, as the text layer measures it for a font and line spacing. */
  datatype CellSize = CellSize(width: Positive, height: Positive)

  /** `GridMetrics`: cell size, size in cells and size in pixels. */
  datatype GridMetrics = GridMetrics(
    cellWidth: Positive, cellHeight: Positive,
    rows: real, cols: real,
    width: real, height: real)

  /** Metrics of a grid of `cols` x `rows` cells of size `cell`. */
  function MetricsOf(cell: CellSize, cols: nat, rows: nat): (m: GridMetrics)
    ensures m.cellWidth == cell.width && m.cellHeight == cell.height
    ensures m.cols == cols as real && m.rows == rows as real
    ensures m.width == m.cols * m.cellWidth && m.height == m.rows * m.cellHeight
  {
    GridMetrics(cell.width, cell.height, rows as real, cols as real,
                cols as real * cell.width, rows as real * cell.height)
  }

  /** `f64::max(v, 0.0)`. */
  function ClampZero(v: real): (r: real)
    ensures r >= 0.0 && r >= v
    ensures r == v || r == 0.0
  {
    if v < 0.0 then 0.0 else v
  }

  /** Rust's float-to-integer `as` cast: truncation toward zero. */
  function Truncate(v: real): (n: int)
    ensures v >= 0.0 ==> n as real <= v < n as real + 1.0
    ensures v < 0.0 ==> n as real - 1.0 < v <= n as real
  {
    if v >= 0.0 then v.Floor else -((-v).Floor)
  }

  const I32Min := -0x8000_0000
  const I32Max := 0x7fff_ffff

  /** The saturation of Rust's float-to-`i32` cast, applied to an integer. */
  function SaturateI32(n: int): (r: int)
    ensures I32Min <= r <= I32Max
    ensures I32Min <= n <= I32Max ==> r == n
    ensures n < I32Min ==> r == I32Min
    ensures n > I32Max ==> r == I32Max
  {
    if n < I32Min then I32Min else if n > I32Max then I32Max else n
  }

  /** `f64::ceil`: the least integer not below `v`. */
  function Ceil(v: real): (n: int)
    ensures n as real - 1.0 < v <= n as real
  {
    -((-v).Floor)
  }

  /** `v.ceil() as i32`: the least integer not below `v`, within the 32-bit range. */
  function CeilI32(v: real): (n: int)
    ensures I32Min <= n <= I32Max
    ensures I32Min as real <= v <= I32Max as real ==> n as real - 1.0 < v <= n as real
  {
    SaturateI32(Ceil(v))
  }

  /** `v.floor() as i32`: the greatest integer not above `v`, within the 32-bit range. */
  function FloorI32(v: real): (n: int)
    ensures I32Min <= n <= I32Max
    ensures I32Min as real <= v <= I32Max as real ==> n as real <= v < n as real + 1.0
  {
    SaturateI32(v.Floor)
  }

  /** `v as i32`: truncation toward zero, within the 32-bit range. */
  function TruncateI32(v: real): (n: int)
    ensures I32Min <= n <= I32Max
    ensures 0.0 <= v <= I32Max as real ==> n as real <= v < n as real + 1.0
  {
    SaturateI32(Truncate(v))
  }

  /**
   * `win_float_anchor_pos`: the top-left corner (x, y) of a float of pixel size
   * `width` x `height` whose `anchor` corner is attached at cell
   * (`anchorRow`, `anchorCol`) of the anchor grid, whose origin is at
   * (`xOffset`, `yOffset`). The corner named by the anchor sits on the anchor
   * point, unless that would put the float left of or above the origin of the
   * screen, in which case that coordinate is clamped to 0.
   */
  function AnchorPos(anchor: Anchor, anchorRow: real, anchorCol: real,
                     anchorMetrics: GridMetrics, width: real, height: real,
                     xOffset: real, yOffset: real): (p: (real, real))
    ensures p.0 >= 0.0 && p.1 >= 0.0
    ensures var ax := xOffset + anchorMetrics.cellWidth * anchorCol;
            var left := if anchor.IsWest() then ax else ax - width;
            (p.0 == left || (p.0 == 0.0 && left < 0.0)) &&
            (left >= 0.0 ==> (if anchor.IsWest() then p.0 else p.0 + width) == ax)
    ensures var ay := yOffset + anchorMetrics.cellHeight * anchorRow;
            var top := if anchor.IsNorth() then ay else ay - height;
            (p.1 == top || (p.1 == 0.0 && top < 0.0)) &&
            (top >= 0.0 ==> (if anchor.IsNorth() then p.1 else p.1 + height) == ay)
  {
    var x := if anchor.IsWest()
      then xOffset + anchorMetrics.cellWidth * anchorCol
      else xOffset + anchorMetrics.cellWidth * anchorCol - width;
    var y := if anchor.IsNorth()
      then yOffset + anchorMetrics.cellHeight * anchorRow
      else yOffset + anchorMetrics.cellHeight * anchorRow - height;
    (ClampZero(x), ClampZero(y))
  }

  /**
   * `win_float_adjust_size`: the (cols, rows) a float at pixel position (x, y)
   * should shrink to so that it does not reach past the primary (`base`) grid.
   * A component is present exactly when the float overflows on that axis; the
   * suggested row count ends the float one row above the base grid's last row,
   * the suggested column count ends it at the base grid's right edge, and both
   * are smaller than what the float has now.
   */
  function AdjustSize(grid: GridMetrics, base: GridMetrics, x: real, y: real)
    : (r: (Option<real>, Option<real>))
    ensures r.1.Some? <==> grid.rows + y / base.cellHeight > base.rows
    ensures r.1.Some? ==> (r.1.value + y / base.cellHeight + 1.0 == base.rows
                           && r.1.value < grid.rows)
    ensures r.0.Some? <==> grid.cols + x / base.cellWidth > base.cols
    ensures r.0.Some? ==> (r.0.value + x / base.cellWidth == base.cols
                           && r.0.value < grid.cols)
  {
    var rows := if grid.rows + y / base.cellHeight > base.rows
      then Some(base.rows - y / base.cellHeight - 1.0) else None;
    var cols := if grid.cols + x / base.cellWidth > base.cols
      then Some(base.cols - x / base.cellWidth) else None;
    (cols, rows)
  }

  /**
   * Moving the anchor origin right (down) never moves the float left (up):
   * placement is monotone in the anchor offset.
   */
  lemma AnchorPosMonotone(anchor: Anchor, anchorRow: real, anchorCol: real,
                          m: GridMetrics, width: real, height: real,
                          xOffset: real, yOffset: real, dx: real, dy: real)
    requires dx >= 0.0 && dy >= 0.0
    ensures var p := AnchorPos(anchor, anchorRow, anchorCol, m, width, height, xOffset, yOffset);
            var q := AnchorPos(anchor, anchorRow, anchorCol, m, width, height, xOffset + dx, yOffset + dy);
            p.0 <= q.0 && p.1 <= q.1
  {
  }

  /** Metrics with the given cell size and no extent, as the unit test builds them. */
  function TestMetrics(cellWidth: Positive, cellHeight: Positive): GridMetrics {
    GridMetrics(cellWidth, cellHeight, 0.0, 0.0, 0.0, 0.0)
  }

  /** The six rows of `test_float_anchor_pos`. */
  lemma AnchorPosTestTable()
    ensures AnchorPos(NW, 10.0, 10.0, TestMetrics(10.0, 10.0), 1000.0, 1000.0, 5.0, 5.0) == (105.0, 105.0)
    ensures AnchorPos(NW, -10.0, -10.0, TestMetrics(10.0, 10.0), 100.0, 100.0, 5.0, 5.0) == (0.0, 0.0)
    ensures AnchorPos(NE, 10.0, 10.0, TestMetrics(10.0, 10.0), 100.0, 100.0, 5.0, 5.0) == (5.0, 105.0)
    ensures AnchorPos(SW, 10.0, 10.0, TestMetrics(10.0, 10.0), 100.0, 100.0, 5.0, 5.0) == (105.0, 5.0)
    ensures AnchorPos(SW, -10.0, 10.0, TestMetrics(10.0, 10.0), 100.0, 100.0, 5.0, 5.0) == (105.0, 0.0)
    ensures AnchorPos(SE, 10.0, 10.0, TestMetrics(10.0, 10.0), 100.0, 100.0, 5.0, 5.0) == (5.0, 5.0)
  {
  }

  /**
   * For a float whose pixel position lies on whole cells (col, row) of the
   * base grid, the suggestions read in cells: a row suggestion exists exactly
   * when the float's rows reach past the base grid's rows, and is then
   * `base.rows - row - 1`; a column suggestion exists exactly when its
   * columns reach past the base grid's columns, and is then `base.cols - col`.
   */
  lemma AdjustSizeOnCells(grid: GridMetrics, base: GridMetrics, col: real, row: real)
    ensures var r := AdjustSize(grid, base, col * base.cellWidth, row * base.cellHeight);
            (r.1.Some? <==> grid.rows + row > base.rows) &&
            (r.1.Some? ==> r.1.value == base.rows - row - 1.0) &&
            (r.0.Some? <==> grid.cols + col > base.cols) &&
            (r.0.Some? ==> r.0.value == base.cols - col)
  {
    assert (col * base.cellWidth) / base.cellWidth == col;
    assert (row * base.cellHeight) / base.cellHeight == row;
  }
}
