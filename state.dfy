/**
 * The UI state of the front end (src/ui/state.rs): the tables of grids and
 * windows, the highlight table, the mode list, the pending resize and the
 * popup-menu routing, kept consistent with the redraw events of the remote
 * editor's `ext_linegrid` / `ext_multigrid` protocol. Outbound remote calls
 * (`spawn_local`) are values appended to `requests`.
 */
module UiState {
  import opened Wrappers
  import opened FloatGeometry
  import opened UiWindow
  import opened Highlights
  import opened ResizeCoalescing
  import opened PopupRouting

  /** A cursor-style descriptor of `mode_info_set`; its attributes are opaque here. */
  datatype ModeInfo = ModeInfo(name: string, shortName: string)

  /**
   * What the UI state knows about one grid: its size in cells, the font and
   * line spacing its cell metrics come from, the active and busy flags, the
   * mode style it draws the cursor with, and the cursor position.
   */
  datatype GridRec = GridRec(
    cols: nat, rows: nat, font: Font, lineSpace: int,
    active: bool, mode: Option<ModeInfo>, busy: bool,
    cursorRow: nat, cursorCol: nat)

  /** The outbound calls to the remote editor. */
  datatype Request =
    | TryResize(cols: int, rows: int)                 // `ui_try_resize`
    | TryResizeGrid(grid: int, cols: int, rows: int)  // `ui_try_resize_grid`

  /** `WindowPos`. */
  datatype WinPos = WinPos(grid: int, win: int, startRow: nat, startCol: nat, width: nat, height: nat)

  /** `WindowFloatPos`. */
  datatype FloatPos = FloatPos(grid: int, win: int, anchor: Anchor, anchorGrid: int,
                               anchorRow: real, anchorCol: real, focusable: bool)

  /** The fields of `WindowViewport` that the UI state reads. */
  datatype Viewport = Viewport(grid: int, topline: int, linecount: int)

  /**
   * `Grid::new` followed by `set_mode` with the current mode, if any: a grid
   * of the given size, font and line spacing that draws with `mode`, starting
   * inactive and not busy, with the cursor in its top-left cell.
   */
  function NewGrid(cols: nat, rows: nat, font: Font, lineSpace: int, mode: Option<ModeInfo>): (g: GridRec)
    ensures (g.cols, g.rows) == (cols, rows) && g.font == font && g.lineSpace == lineSpace
    ensures g.mode == mode
    ensures !g.active && !g.busy && (g.cursorRow, g.cursorCol) == (0, 0)
  {
    GridRec(cols, rows, font, lineSpace, false, mode, false, 0, 0)
  }

  /** Every grid replaced by `f` of itself. */
  function MapGrids(m: map<int, GridRec>, f: GridRec -> GridRec): (r: map<int, GridRec>)
    ensures r.Keys == m.Keys
    ensures forall k :: k in m ==> r[k] == f(m[k])
  {
    map k | k in m :: f(m[k])
  }

  /**
   * The `ui_try_resize_grid` request `window_float_pos` queues for a float
   * with metrics `gm` and suggested size `newSize` (cols, rows): one exactly
   * when at least one axis has a suggestion, asking for the suggested count
   * on that axis and the current one on the other, truncated as `as i64` does.
   */
  function FloatResizeRequest(grid: int, gm: GridMetrics, newSize: (Option<real>, Option<real>))
    : (r: Option<Request>)
    ensures r.Some? <==> newSize.0.Some? || newSize.1.Some?
    ensures r.Some? ==> r.value.TryResizeGrid? && r.value.grid == grid
    ensures r.Some? && newSize.0.None? ==> r.value.cols == Truncate(gm.cols)
    ensures r.Some? && newSize.1.None? ==> r.value.rows == Truncate(gm.rows)
    ensures r.Some? && newSize.0.Some? ==> r.value.cols == Truncate(newSize.0.value)
    ensures r.Some? && newSize.1.Some? ==> r.value.rows == Truncate(newSize.1.value)
  {
    if newSize.0.Some? || newSize.1.Some? then
      Some(TryResizeGrid(grid, Truncate(newSize.0.GetOr(gm.cols)), Truncate(newSize.1.GetOr(gm.rows))))
    else None
  }

  /**
   * The scrollbar decision of `window_viewport` for a grid of `cols` x `rows`
   * cells of size `cell`: hidden (`None`) exactly when the buffer's
   * `linecount` lines fit in the grid's rows; otherwise an adjustment whose
   * thumb sits at the fraction `topline / linecount` of the range and whose
   * page is the grid's pixel height, the fraction `rows / linecount` of it.
   * In pixels, the thumb is at `topline` cell heights and the range is
   * `linecount` cell heights long.
   */
  function ViewportScrollbar(linecount: int, topline: int, cell: CellSize, cols: nat, rows: nat)
    : (r: Option<Adjustment>)
    ensures r.None? <==> linecount <= rows
    ensures r.Some? ==>
              var a := r.value;
              && a.lower == 0.0 && a.upper > 0.0
              && a.value == cell.height * topline as real
              && a.upper == cell.height * linecount as real
              && a.value / a.upper == topline as real / linecount as real
              && a.pageSize / a.upper == rows as real / linecount as real
              && a.pageSize == rows as real * cell.height
              && a.stepIncrement == a.pageSize && a.pageIncrement == a.pageSize
  {
    var m := MetricsOf(cell, cols, rows);
    if linecount <= rows then None
    else
      var a := Adjustment(m.cellHeight * topline as real, 0.0, m.cellHeight * linecount as real,
                          m.height, m.height, m.height);
      assert a.value / a.upper == topline as real / linecount as real by {
        ScaleRatio(m.cellHeight, topline as real, linecount as real);
      }
      assert a.pageSize / a.upper == rows as real / linecount as real by {
        ScaleRatio(m.cellHeight, rows as real, linecount as real);
      }
      Some(a)
  }

  /** Some element of a non-empty set. */
  method Pick<K>(s: set<K>) returns (k: K)
    requires s != {}
    ensures k in s
  {
    k :| k in s;
  }

  /**
   * The pixel rectangle (x, y, width, height) of a `WindowPos` cell
   * rectangle in the primary grid's cell metrics `base`: non-negative, and
   * as many cell widths and heights as the event gives cells.
   */
  function CellRectPixels(e: WinPos, base: GridMetrics): (r: (real, real, real, real))
    ensures r.0 >= 0.0 && r.1 >= 0.0 && r.2 >= 0.0 && r.3 >= 0.0
    ensures r.0 / base.cellWidth == e.startCol as real && r.1 / base.cellHeight == e.startRow as real
    ensures r.2 / base.cellWidth == e.width as real && r.3 / base.cellHeight == e.height as real
  {
    (e.startCol as real * base.cellWidth, e.startRow as real * base.cellHeight,
     e.width as real * base.cellWidth, e.height as real * base.cellHeight)
  }

  /** A common positive factor cancels in a ratio. */
  lemma ScaleRatio(c: real, p: real, q: real)
    requires c > 0.0 && q > 0.0
    ensures (c * p) / (c * q) == p / q
  {
    assert (c * p) / (c * q) * (c * q) == c * p;
    assert p / q * (c * q) == c * p;
  }

  class UIState {
    /** The text layer's cell size for a font and line spacing (opaque here). */
    const cellSize: (Font, int) -> CellSize

    var grids: map<int, GridRec>
    var windows: map<int, Window>
    var hl: HlDefs
    var modeInfos: seq<ModeInfo>
    var currentMode: Option<ModeInfo>
    /** The grid the cursor is on. */
    var currentGrid: int
    /** `wildmenu_shown` and the two menu surfaces it routes between. */
    var menus: Menus
    /** The delayed `ui_try_resize` timer, if one is scheduled. */
    var resizeSourceId: Option<int>
    var resizeOnFlush: Option<ResizeOptions>
    var hlChanged: bool
    /** The font and line spacing new grids are created with. */
    var font: Font
    var lineSpace: int
    /** The font and line spacing the popup menu, command line and tab line use. */
    var surfaceOptions: ResizeOptions
    /** Outbound remote calls, oldest first. */
    var requests: seq<Request>

    /**
     * The table invariant: highlight id 0 exists, the cursor is on an
     * existing grid or on the primary grid (which `grid_destroy` falls back
     * to), every window hosts an existing grid and is filed under the id of
     * the grid it shows (so no window object is filed twice), and every
     * window was placed at non-negative coordinates.
     */
    ghost predicate Valid()
      reads this`hl, this`windows, this`grids, this`currentGrid, windows.Values
    {
      && 0 in hl.defs
      && (currentGrid == 1 || currentGrid in grids)
      && windows.Keys <= grids.Keys
      && (forall k :: k in windows ==> windows[k].gridId == k)
      && (forall k :: k in windows ==> windows[k].x >= 0.0 && windows[k].y >= 0.0)
    }

    /**
     * Once the primary grid exists the cursor is always on an existing grid,
     * and a grid with a window always exists.
     */
    lemma CursorOnExistingGrid()
      requires Valid() && 1 in grids
      ensures currentGrid in grids
      ensures forall k :: k in windows ==> k in grids
    {
    }

    /** A UI state before any redraw event: no grids, no windows, cursor on grid 1. */
    constructor (cellSize: (Font, int) -> CellSize, font: Font, lineSpace: int)
      ensures Valid()
      ensures this.cellSize == cellSize && this.font == font && this.lineSpace == lineSpace
      ensures grids == map[] && windows == map[] && currentGrid == 1
      ensures hl == InitialDefs() && !hlChanged
      ensures modeInfos == [] && currentMode == None && menus == InitialMenus
      ensures resizeOnFlush == None && resizeSourceId == None && requests == []
      ensures surfaceOptions == ResizeOptions(font, lineSpace)
    {
      this.cellSize := cellSize;
      grids := map[];
      windows := map[];
      hl := InitialDefs();
      modeInfos := [];
      currentMode := None;
      currentGrid := 1;
      menus := InitialMenus;
      resizeSourceId := None;
      resizeOnFlush := None;
      hlChanged := false;
      this.font := font;
      this.lineSpace := lineSpace;
      surfaceOptions := ResizeOptions(font, lineSpace);
      requests := [];
    }

    /** `get_grid_metrics` of grid `id`. */
    function Metrics(id: int): (m: GridMetrics)
      reads this`grids
      requires id in grids
      ensures m.cols == grids[id].cols as real && m.rows == grids[id].rows as real
    {
      MetricsOf(cellSize(grids[id].font, grids[id].lineSpace), grids[id].cols, grids[id].rows)
    }

    /** The font and line spacing of the primary grid, which seed a pending resize. */
    function PrimaryOptions(): (o: Option<ResizeOptions>)
      reads this`grids
      ensures o.Some? <==> 1 in grids
      ensures o.Some? ==> o.value.font == grids[1].font && o.value.lineSpace == grids[1].lineSpace
    {
      if 1 in grids then Some(ResizeOptions(grids[1].font, grids[1].lineSpace)) else None
    }

    /**
     * `windows.values().find(|w| w.grid_id == id)`: by the table invariant
     * the window showing grid `id` is the one filed under `id`.
     */
    function HostingWindow(id: int): (w: Option<Window>)
      reads this`hl, this`windows, this`grids, this`currentGrid, windows.Values
      requires Valid()
      ensures w.Some? <==> exists k :: k in windows && windows[k].gridId == id
      ensures w.Some? ==> w.value in windows.Values && w.value.gridId == id
    {
      if id in windows then Some(windows[id]) else None
    }

    /**
     * `get_float_anchor_pos`: the pixel origin a float's anchor offsets are
     * measured from. It is the screen origin when the float is anchored to the
     * primary grid or (a protocol misuse) to itself, and otherwise the
     * position of the anchor grid's window; either way it is non-negative.
     */
    function FloatAnchorOrigin(e: FloatPos): (o: (real, real))
      reads this`hl, this`windows, this`grids, this`currentGrid, windows.Values
      requires Valid()
      requires e.anchorGrid != 1 && e.anchorGrid != e.grid ==> e.anchorGrid in windows
      ensures o.0 >= 0.0 && o.1 >= 0.0
      ensures e.anchorGrid == 1 || e.anchorGrid == e.grid ==> o == (0.0, 0.0)
      ensures e.anchorGrid != 1 && e.anchorGrid != e.grid ==>
                o == (windows[e.anchorGrid].x, windows[e.anchorGrid].y)
    {
      if e.anchorGrid == 1 || e.anchorGrid == e.grid then (0.0, 0.0)
      else (windows[e.anchorGrid].x, windows[e.anchorGrid].y)
    }

    /** Preconditions of `window_float_pos`: the lookups it unwraps succeed. */
    ghost predicate FloatPosReady(e: FloatPos)
      reads this`hl, this`windows, this`grids, this`currentGrid, windows.Values
    {
      && Valid()
      && e.grid in grids && e.anchorGrid in grids && 1 in grids
      && (e.anchorGrid != 1 && e.anchorGrid != e.grid ==> e.anchorGrid in windows)
    }

    /** Where `window_float_pos` puts the float's top-left corner. */
    ghost function FloatPlacement(e: FloatPos): (p: (real, real))
      reads this`hl, this`windows, this`grids, this`currentGrid, windows.Values
      requires FloatPosReady(e)
      ensures p.0 >= 0.0 && p.1 >= 0.0
    {
      var origin := FloatAnchorOrigin(e);
      var gm := Metrics(e.grid);
      AnchorPos(e.anchor, e.anchorRow, e.anchorCol, Metrics(e.anchorGrid),
                gm.width, gm.height, origin.0, origin.1)
    }

    /** The grid-shrink request `window_float_pos` queues, if any. */
    ghost function FloatRequest(e: FloatPos): Option<Request>
      reads this`hl, this`windows, this`grids, this`currentGrid, windows.Values
      requires FloatPosReady(e)
    {
      var p := FloatPlacement(e);
      FloatResizeRequest(e.grid, Metrics(e.grid), AdjustSize(Metrics(e.grid), Metrics(1), p.0, p.1))
    }

    /**
     * `grid_cursor_goto`. Moving to another grid deactivates the grid the
     * cursor was on, activates the new one and makes it current; on the
     * current grid only the cursor position changes.
     */
    method GridCursorGoto(gridId: int, row: nat, col: nat)
      requires Valid()
      requires gridId in grids
      requires gridId != currentGrid ==> currentGrid in grids
      modifies this`grids, this`currentGrid
      ensures Valid()
      ensures currentGrid == gridId && grids.Keys == old(grids.Keys)
      ensures gridId != old(currentGrid) ==>
                grids == old(grids)[old(currentGrid) := old(grids[currentGrid]).(active := false)]
                                   [gridId := old(grids[gridId]).(active := true, cursorRow := row, cursorCol := col)]
      ensures gridId == old(currentGrid) ==>
                grids == old(grids)[gridId := old(grids[gridId]).(cursorRow := row, cursorCol := col)]
    {
      if gridId != currentGrid {
        grids := grids[currentGrid := grids[currentGrid].(active := false)];
        currentGrid := gridId;
        grids := grids[gridId := grids[gridId].(active := true)];
      }
      grids := grids[gridId := grids[gridId].(cursorRow := row, cursorCol := col)];
    }

    /**
     * `grid_resize`. An unknown id gets a new grid of the given size, with
     * the current font, line spacing and mode. A known grid only changes size,
     * and the window showing it, if any, has its size request set to the
     * grid's new pixel size. No other grid or window changes.
     */
    method GridResize(id: int, width: nat, height: nat)
      requires Valid()
      modifies this`grids, windows.Values
      ensures Valid()
      ensures id in old(grids) ==>
                grids == old(grids)[id := old(grids[id]).(cols := width, rows := height)]
      ensures id !in old(grids) ==>
                grids == old(grids)[id := NewGrid(width, height, font, lineSpace, currentMode)]
      ensures id in old(grids) && id in windows ==>
                windows[id].State() == old(windows[id].State()).(
                  sizeRequest := Some((CeilI32(Metrics(id).width), CeilI32(Metrics(id).height))))
      ensures forall k :: k in windows && (k != id || id !in old(grids)) ==> unchanged(windows[k])
    {
      if id in grids {
        grids := grids[id := grids[id].(cols := width, rows := height)];
        var host := HostingWindow(id);
        if host.Some? {
          var m := Metrics(id);
          host.value.Resize((CeilI32(m.width), CeilI32(m.height)));
        }
      } else {
        grids := grids[id := NewGrid(width, height, font, lineSpace, currentMode)];
      }
    }

    /**
     * `grid_destroy`. The grid and the window filed under its id are dropped,
     * whether or not they exist, and the cursor returns to grid 1. Grid 1 is
     * kept unless it is the one destroyed, so destroying another grid leaves
     * the cursor on an existing grid whenever grid 1 exists.
     */
    method GridDestroy(id: int)
      requires Valid()
      modifies this`grids, this`windows, this`currentGrid
      ensures Valid()
      ensures grids == old(grids) - {id} && windows == old(windows) - {id}
      ensures currentGrid == 1
      ensures id != 1 ==> (1 in grids <==> 1 in old(grids))
      ensures 1 in grids ==> currentGrid in grids
    {
      grids := grids - {id};
      if id in windows {
        windows := windows - {id};
      }
      currentGrid := 1;
    }

    /** `default_colors_set`: updates the defaults and id 0, and marks highlights changed. */
    method DefaultColorsSet(fg: Color, bg: Color, sp: Color)
      requires Valid()
      modifies this`hl, this`hlChanged
      ensures Valid()
      ensures hl == SetDefaultColors(old(hl), fg, bg, sp)
      ensures hlChanged
    {
      hl := SetDefaultColors(hl, fg, bg, sp);
      hlChanged := true;
    }

    /** `hl_attr_define`: defines one id; it does not mark highlights changed. */
    method HlAttrDefine(id: int, attrs: Highlight)
      requires Valid()
      modifies this`hl
      ensures Valid()
      ensures hl == Define(old(hl), id, attrs)
    {
      hl := Define(hl, id, attrs);
    }

    /** `hl_group_set`: aliases the roles `name` feeds, and always marks highlights changed. */
    method HlGroupSet(name: string, hlId: int)
      requires Valid()
      modifies this`hl, this`hlChanged
      ensures Valid()
      ensures hl == SetGroupByName(old(hl), name, hlId)
      ensures hlChanged
    {
      hl := SetGroupByName(hl, name, hlId);
      hlChanged := true;
    }

    /**
     * `option_set`. A font or line-spacing change becomes the font or line
     * spacing of new grids and is coalesced into the pending resize; an
     * unsupported option changes nothing.
     */
    method OptionSet(e: OptionEvent)
      requires Valid()
      requires Schedules(e) && resizeOnFlush.None? ==> 1 in grids
      modifies this`font, this`lineSpace, this`resizeOnFlush
      ensures Valid()
      ensures resizeOnFlush == Coalesce(old(resizeOnFlush), PrimaryOptions(), e)
      ensures font == (if e.GuiFont? then FontOf(e.parsed) else old(font))
      ensures lineSpace == (if e.LineSpace? then e.value else old(lineSpace))
    {
      match e
      case GuiFont(parsed) =>
        var f := FontOf(parsed);
        font := f;
        var opts := if resizeOnFlush.Some? then resizeOnFlush.value
                    else ResizeOptions(grids[1].font, grids[1].lineSpace);
        resizeOnFlush := Some(opts.(font := f));
      case LineSpace(v) =>
        lineSpace := v;
        var opts := if resizeOnFlush.Some? then resizeOnFlush.value
                    else ResizeOptions(grids[1].font, grids[1].lineSpace);
        resizeOnFlush := Some(opts.(lineSpace := v));
      case NotSupported(_) =>
    }

    /** `mode_info_set`. */
    method ModeInfoSet(infos: seq<ModeInfo>)
      modifies this`modeInfos
      ensures modeInfos == infos
    {
      modeInfos := infos;
    }

    /** `mode_change`: the indexed mode becomes current and every grid takes it. */
    method ModeChange(index: nat)
      requires Valid()
      requires index < |modeInfos|
      modifies this`currentMode, this`grids
      ensures Valid()
      ensures currentMode == Some(modeInfos[index])
      ensures var mode := modeInfos[index];
              grids == MapGrids(old(grids), (g: GridRec) => g.(mode := Some(mode)))
    {
      var mode := modeInfos[index];
      currentMode := Some(mode);
      ApplyToGrids((g: GridRec) => g.(mode := Some(mode)));
    }

    /** `set_busy`: every grid takes the busy flag. */
    method SetBusy(busy: bool)
      requires Valid()
      modifies this`grids
      ensures Valid()
      ensures grids == MapGrids(old(grids), (g: GridRec) => g.(busy := busy))
    {
      ApplyToGrids((g: GridRec) => g.(busy := busy));
    }

    /** `for grid in self.grids.values()`: updates every grid in turn. */
    method ApplyToGrids(f: GridRec -> GridRec)
      modifies this`grids
      ensures grids == MapGrids(old(grids), f)
    {
      ghost var orig := grids;
      var todo := grids.Keys;
      while todo != {}
        invariant todo <= orig.Keys && grids.Keys == orig.Keys
        invariant forall k :: k in orig && k !in todo ==> grids[k] == f(orig[k])
        invariant forall k :: k in todo ==> grids[k] == orig[k]
        decreases todo
      {
        var id := Pick(todo);
        grids := grids[id := f(grids[id])];
        todo := todo - {id};
      }
      assert forall k :: k in orig ==> grids[k] == f(orig[k]);
    }

    /**
     * `flush`. A pending resize is consumed: every grid takes its font and
     * line spacing, any delayed resize timer is cancelled, exactly one
     * `ui_try_resize` with the primary grid's new size (`primarySize`, as
     * `calc_size` reports it) is queued and the auxiliary surfaces take the
     * font and line spacing. Without a pending resize no request is queued
     * and the grids stay as they are. Afterwards nothing is pending and the
     * highlight-changed flag is clear.
     */
    method Flush(primarySize: (nat, nat))
      requires Valid()
      requires resizeOnFlush.Some? ==> 1 in grids
      modifies this`grids, this`resizeOnFlush, this`resizeSourceId, this`requests,
               this`hlChanged, this`surfaceOptions
      ensures Valid()
      ensures resizeOnFlush == None && !hlChanged
      ensures old(resizeOnFlush).Some? ==>
                var opts := old(resizeOnFlush.value);
                && grids == MapGrids(old(grids), (g: GridRec) => g.(font := opts.font, lineSpace := opts.lineSpace))
                && requests == old(requests) + [TryResize(primarySize.0, primarySize.1)]
                && resizeSourceId == None
                && surfaceOptions == opts
      ensures old(resizeOnFlush).None? ==>
                && grids == old(grids) && requests == old(requests)
                && resizeSourceId == old(resizeSourceId) && surfaceOptions == old(surfaceOptions)
    {
      if resizeOnFlush.Some? {
        var opts := resizeOnFlush.value;
        resizeOnFlush := None;
        ApplyToGrids((g: GridRec) => g.(font := opts.font, lineSpace := opts.lineSpace));
        if resizeSourceId.Some? {
          resizeSourceId := None;
        }
        requests := requests + [TryResize(primarySize.0, primarySize.1)];
        surfaceOptions := opts;
      }
      if hlChanged {
        hlChanged := false;
      }
    }

    /**
     * The completion-menu anchor: the cell's rectangle, of the same size,
     * moved right and down by the whole pixels of the position of the window
     * showing the event's grid. A wildmenu show, or a grid without a window,
     * leaves the rectangle where it is.
     */
    function MenuAnchor(e: ShowEvent, cellRect: Rect): (r: Rect)
      reads this`hl, this`windows, this`grids, this`currentGrid, windows.Values
      requires Valid()
      ensures r.width == cellRect.width && r.height == cellRect.height
      ensures e.grid == WildmenuGrid || e.grid !in windows ==> r == cellRect
      ensures e.grid != WildmenuGrid && e.grid in windows ==>
                var w := windows[e.grid];
                && r.x - cellRect.x == TruncateI32(w.x) && r.y - cellRect.y == TruncateI32(w.y)
                && (w.x <= I32Max as real ==> 0 <= r.x - cellRect.x && (r.x - cellRect.x) as real <= w.x < (r.x - cellRect.x + 1) as real)
                && (w.y <= I32Max as real ==> 0 <= r.y - cellRect.y && (r.y - cellRect.y) as real <= w.y < (r.y - cellRect.y + 1) as real)
    {
      if e.grid != WildmenuGrid && e.grid in windows then
        cellRect.(x := cellRect.x + TruncateI32(windows[e.grid].x),
                  y := cellRect.y + TruncateI32(windows[e.grid].y))
      else cellRect
    }

    /**
     * `popupmenu_show`; `cellRect` is what the current grid reports for the
     * event's cell. The flag and the surfaces change as `Show` says.
     */
    method PopupmenuShow(e: ShowEvent, cellRect: Rect)
      requires Valid()
      requires e.grid != WildmenuGrid ==> currentGrid in grids && e.grid in windows
      modifies this`menus
      ensures Valid()
      ensures menus == Show(old(menus), e, MenuAnchor(e, cellRect))
    {
      menus := Show(menus, e, MenuAnchor(e, cellRect));
    }

    /** `popupmenu_select`. */
    method PopupmenuSelect(selected: int)
      requires Valid()
      modifies this`menus
      ensures Valid()
      ensures menus == Select(old(menus), selected)
    {
      menus := Select(menus, selected);
    }

    /**
     * `popupmenu_hide`, with the corrected `Hide`: a wildmenu hide also ends
     * wildmenu mode. The code as written never clears `wildmenu_shown`
     * (`HideAsWritten`).
     */
    method PopupmenuHide()
      requires Valid()
      modifies this`menus
      ensures Valid()
      ensures menus == Hide(old(menus))
    {
      menus := Hide(menus);
    }

    /**
     * The window bookkeeping `window_pos` and `window_float_pos` share: the
     * window filed under `grid` is moved into `fixed`, or created there for
     * the remote window `win` when there is none, then placed at (x, y) with
     * the given pixel size and shown, scrollbar included. No other window
     * changes.
     */
    method PlaceWindow(grid: int, win: int, fixed: Container, x: real, y: real, width: real, height: real)
      requires Valid()
      requires grid in grids && x >= 0.0 && y >= 0.0
      modifies this`windows, windows.Values
      ensures Valid()
      ensures windows.Keys == old(windows.Keys) + {grid}
      ensures grid in old(windows) ==> windows[grid] == old(windows[grid])
      ensures grid !in old(windows) ==> fresh(windows[grid]) && windows[grid].nvimWin == win
      ensures var before := if grid in old(windows) then old(windows[grid].State()) else InitialState(fixed);
              windows[grid].State() ==
                Placed(before, fixed, x, y, width, height).(frameVisible := true, scrollbarVisible := true)
      ensures forall k :: k in old(windows) && k != grid ==>
                windows[k] == old(windows[k]) && unchanged(windows[k])
    {
      var w: Window;
      if grid in windows {
        w := windows[grid];
        w.SetParent(fixed);
      } else {
        w := new Window(win, fixed, grid);
        windows := windows[grid := w];
      }
      w.SetPosition(x, y, width, height);
      w.Show();
    }

    /**
     * `window_pos`. The grid's window is created in, or moved to, the docked
     * container, placed at the event's cell rectangle in the primary grid's
     * cell metrics (any external surface is torn down) and shown, scrollbar
     * included; the grid takes the rectangle's size in cells. No other window
     * changes.
     */
    method WindowPos(e: WinPos)
      requires Valid()
      requires e.grid in grids && 1 in grids
      modifies this`windows, this`grids, windows.Values
      ensures Valid()
      ensures windows.Keys == old(windows.Keys) + {e.grid}
      ensures e.grid in old(windows) ==> windows[e.grid] == old(windows[e.grid])
      ensures e.grid !in old(windows) ==>
                fresh(windows[e.grid]) && windows[e.grid].nvimWin == e.win
      ensures var r := CellRectPixels(e, old(Metrics(1)));
              var before := if e.grid in old(windows) then old(windows[e.grid].State()) else InitialState(Docked);
              windows[e.grid].State() ==
                Placed(before, Docked, r.0, r.1, r.2, r.3).(frameVisible := true, scrollbarVisible := true)
      ensures grids == old(grids)[e.grid := old(grids[e.grid]).(cols := e.width, rows := e.height)]
      ensures forall k :: k in old(windows) && k != e.grid ==>
                windows[k] == old(windows[k]) && unchanged(windows[k])
    {
      var r := CellRectPixels(e, Metrics(1));
      PlaceWindow(e.grid, e.win, Docked, r.0, r.1, r.2, r.3);
      grids := grids[e.grid := grids[e.grid].(cols := e.width, rows := e.height)];
    }

    /**
     * `window_float_pos`. The float's window is created in, or moved to, the
     * floating container and placed at `FloatPlacement` with the grid's pixel
     * size (any external surface is torn down) and shown, scrollbar included;
     * when the float reaches past
     * the primary grid, one `ui_try_resize_grid` asking it to shrink is
     * queued. The float keeps its current size. No other window changes.
     */
    method WindowFloatPos(e: FloatPos)
      requires FloatPosReady(e)
      modifies this`windows, this`requests, windows.Values
      ensures Valid()
      ensures windows.Keys == old(windows.Keys) + {e.grid}
      ensures e.grid in old(windows) ==> windows[e.grid] == old(windows[e.grid])
      ensures e.grid !in old(windows) ==>
                fresh(windows[e.grid]) && windows[e.grid].nvimWin == e.win
      ensures var before := if e.grid in old(windows) then old(windows[e.grid].State()) else InitialState(Float);
              var p := old(FloatPlacement(e));
              windows[e.grid].State() ==
                Placed(before, Float, p.0, p.1, Metrics(e.grid).width, Metrics(e.grid).height)
                  .(frameVisible := true, scrollbarVisible := true)
      ensures requests == old(requests) + (match old(FloatRequest(e))
                                            case Some(r) => [r]
                                            case None => [])
      ensures forall k :: k in old(windows) && k != e.grid ==>
                windows[k] == old(windows[k]) && unchanged(windows[k])
    {
      var origin := FloatAnchorOrigin(e);
      var anchorMetrics := Metrics(e.anchorGrid);
      var gm := Metrics(e.grid);
      var pos := AnchorPos(e.anchor, e.anchorRow, e.anchorCol, anchorMetrics,
                           gm.width, gm.height, origin.0, origin.1);
      var newSize := AdjustSize(gm, Metrics(1), pos.0, pos.1);
      var req := FloatResizeRequest(e.grid, gm, newSize);
      assert pos == FloatPlacement(e) && req == FloatRequest(e);
      if req.Some? {
        requests := requests + [req.value];
      }
      PlaceWindow(e.grid, e.win, Float, pos.0, pos.1, gm.width, gm.height);
    }

    /**
     * `window_external_pos`. The grid's window (created in the floating
     * container if it has none) is promoted to its own surface of the grid's
     * pixel size and shown with its scrollbar; a window that is already
     * external does not change.
     */
    method WindowExternalPos(grid: int, win: int)
      requires Valid()
      requires grid in grids
      modifies this`windows, windows.Values
      ensures Valid()
      ensures windows.Keys == old(windows.Keys) + {grid} && windows[grid].external
      ensures grid !in old(windows) ==>
                && fresh(windows[grid]) && windows[grid].nvimWin == win
                && windows[grid].State() == InitialState(Float).(
                     external := true, sizeRequest := Some((CeilI32(Metrics(grid).width), CeilI32(Metrics(grid).height))),
                     frameVisible := true, scrollbarVisible := true)
      ensures grid in old(windows) ==> windows[grid] == old(windows[grid])
      ensures grid in old(windows) && old(windows[grid].external) ==> unchanged(windows[grid])
      ensures grid in old(windows) && !old(windows[grid].external) ==>
                windows[grid].State() == old(windows[grid].State()).(
                  external := true, sizeRequest := Some((CeilI32(Metrics(grid).width), CeilI32(Metrics(grid).height))),
                  frameVisible := true, scrollbarVisible := true)
      ensures forall k :: k in old(windows) && k != grid ==>
                windows[k] == old(windows[k]) && unchanged(windows[k])
    {
      var w: Window;
      if grid in windows {
        w := windows[grid];
      } else {
        w := new Window(win, Float, grid);
        windows := windows[grid := w];
      }
      var gm := Metrics(grid);
      w.SetExternal((CeilI32(gm.width), CeilI32(gm.height)));
    }

    /**
     * `window_hide`: hides the frame of the window filed under `grid`; its
     * scrollbar flag and every other window stay as they are.
     */
    method WindowHide(grid: int)
      requires Valid()
      requires grid in windows
      modifies windows.Values
      ensures Valid()
      ensures windows[grid].State() == old(windows[grid].State()).(frameVisible := false)
      ensures forall k :: k in windows && k != grid ==> unchanged(windows[k])
    {
      windows[grid].Hide();
    }

    /** `window_close`: drops the window filed under `grid`, if there is one. */
    method WindowClose(grid: int)
      requires Valid()
      modifies this`windows
      ensures Valid()
      ensures windows == old(windows) - {grid}
    {
      windows := windows - {grid};
    }

    /**
     * `window_viewport`. For a grid that has a window, the scrollbar is hidden
     * or shown and configured as `ViewportScrollbar` decides; nothing else
     * changes, and an event for a grid without a window is ignored.
     */
    method WindowViewport(v: Viewport)
      requires Valid()
      modifies windows.Values
      ensures Valid()
      ensures v.grid in windows ==>
                var g := grids[v.grid];
                var s := ViewportScrollbar(v.linecount, v.topline, cellSize(g.font, g.lineSpace), g.cols, g.rows);
                windows[v.grid].State() ==
                  if s.None? then old(windows[v.grid].State()).(scrollbarVisible := false)
                  else old(windows[v.grid].State()).(scrollbarVisible := true, adjustment := s.value)
      ensures forall k :: k in windows && k != v.grid ==> unchanged(windows[k])
    {
      if v.grid in windows {
        var w := windows[v.grid];
        var g := grids[v.grid];
        var s := ViewportScrollbar(v.linecount, v.topline, cellSize(g.font, g.lineSpace), g.cols, g.rows);
        if s.None? {
          w.HideScrollbar();
          return;
        }
        w.ShowScrollbar();
        var a := s.value;
        w.SetAdjustment(a.value, a.lower, a.upper, a.stepIncrement, a.pageIncrement, a.pageSize);
      }
    }
  }
}
