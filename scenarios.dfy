/**
 * Event sequences applied to the UI state: a batch of option changes
 * followed by a flush, two floating-window placements over an 80 x 24
 * primary grid, a hidden scrollbar shown again by a window placement, and a
 * wildmenu show followed by a hide.
 */
module Scenarios {
  import opened Wrappers
  import opened FloatGeometry
  import opened UiWindow
  import opened ResizeCoalescing
  import opened PopupRouting
  import opened UiState

  /**
   * A batch of `option_set` events and the `flush` that ends the batch.
   * However many font and line-spacing changes arrive, exactly one
   * `ui_try_resize` is queued when any was pending or scheduled (and none
   * otherwise), and every grid ends up with the last font and the last line
   * spacing given, each falling back to the pending record's or else the
   * primary grid's value.
   */
  method OptionSetsThenFlush(ui: UIState, es: seq<OptionEvent>, primarySize: (nat, nat))
    requires ui.Valid() && 1 in ui.grids
    modifies ui
    ensures ui.Valid()
    ensures ui.resizeOnFlush == None && !ui.hlChanged
    ensures var start := if old(ui.resizeOnFlush).Some? then old(ui.resizeOnFlush.value)
                         else ResizeOptions(old(ui.grids[1].font), old(ui.grids[1].lineSpace));
            var font, space := LastFont(es, start.font), LastLineSpace(es, start.lineSpace);
            var scheduled := old(ui.resizeOnFlush).Some? || exists i :: 0 <= i < |es| && Schedules(es[i]);
            && (scheduled ==>
                  && ui.requests == old(ui.requests) + [TryResize(primarySize.0, primarySize.1)]
                  && ui.grids == MapGrids(old(ui.grids), (g: GridRec) => g.(font := font, lineSpace := space)))
            && (!scheduled ==> ui.requests == old(ui.requests) && ui.grids == old(ui.grids))
  {
    ghost var pending0 := ui.resizeOnFlush;
    ghost var primary := ui.PrimaryOptions();
    var i := 0;
    while i < |es|
      invariant 0 <= i <= |es|
      invariant ui.Valid()
      invariant ui.grids == old(ui.grids) && ui.requests == old(ui.requests)
      invariant ui.resizeOnFlush == CoalesceAll(pending0, primary, es[..i])
    {
      CoalesceAllSnoc(pending0, primary, es[..i], es[i]);
      assert es[..i + 1] == es[..i] + [es[i]];
      ui.OptionSet(es[i]);
      i := i + 1;
    }
    assert es[..|es|] == es;
    CoalesceAllKeepsLast(pending0, primary, es);
    ui.Flush(primarySize);
  }

  /** A text layer whose cells are 8 x 16 pixels for every font and line spacing. */
  function FixedCells(font: Font, lineSpace: int): CellSize {
    CellSize(8.0, 16.0)
  }

  /** Grid 1 at 80 x 24 cells and grid 5 at 40 x 10, neither in a window yet. */
  method PrimaryAndFloatGrids() returns (ui: UIState)
    ensures fresh(ui) && ui.Valid() && ui.cellSize == FixedCells
    ensures ui.grids.Keys == {1, 5} && ui.windows == map[] && ui.requests == []
    ensures (ui.grids[1].cols, ui.grids[1].rows) == (80, 24)
    ensures (ui.grids[5].cols, ui.grids[5].rows) == (40, 10)
  {
    ui := new UIState(FixedCells, DefaultFont, 0);
    ui.GridResize(1, 80, 24);
    ui.GridResize(5, 40, 10);
  }

  /**
   * A 40 x 10 float anchored by its north-west corner at cell (0, 0) of the
   * primary grid is placed at the origin and fits, so no resize is requested.
   */
  method FloatThatFits() returns (ui: UIState)
    ensures ui.Valid() && 5 in ui.windows && ui.requests == []
    ensures ui.windows[5].parent == Float && !ui.windows[5].external && ui.windows[5].frameVisible
    ensures (ui.windows[5].x, ui.windows[5].y) == (0.0, 0.0)
    ensures ui.windows[5].sizeRequest == Some((320, 160))
  {
    ui := PrimaryAndFloatGrids();
    var e := FloatPos(5, 1005, NW, 1, 0.0, 0.0, true);
    assert ui.FloatPlacement(e) == (0.0, 0.0);
    assert ui.FloatRequest(e) == None;
    ui.WindowFloatPos(e);
  }

  /**
   * The same float anchored at row 20 would reach row 30 of a 24-row primary
   * grid: it is shown at row 20 at its full 40 x 10 size, and one request
   * asks the remote editor to shrink grid 5 to 3 rows, keeping its 40 columns.
   */
  method FloatPastBottom() returns (ui: UIState)
    ensures ui.Valid() && 5 in ui.windows && 5 in ui.grids
    ensures ui.requests == [TryResizeGrid(5, 40, 3)]
    ensures ui.windows[5].parent == Float && ui.windows[5].frameVisible
    ensures (ui.windows[5].x, ui.windows[5].y) == (0.0, 320.0)
    ensures ui.windows[5].sizeRequest == Some((320, 160))
    ensures (ui.grids[5].cols, ui.grids[5].rows) == (40, 10)
  {
    ui := PrimaryAndFloatGrids();
    var e := FloatPos(5, 1005, NW, 1, 20.0, 0.0, true);
    assert ui.FloatPlacement(e) == (0.0, 320.0);
    assert AdjustSize(ui.Metrics(5), ui.Metrics(1), 0.0, 320.0) == (None, Some(3.0));
    assert ui.FloatRequest(e) == Some(TryResizeGrid(5, 40, 3));
    assert (ui.Metrics(5).width, ui.Metrics(5).height) == (320.0, 160.0);
    assert (CeilI32(320.0), CeilI32(160.0)) == (320, 160);
    ui.WindowFloatPos(e);
  }

  /**
   * A viewport whose lines all fit hides the scrollbar, and the `window_pos`
   * that follows shows it again, since showing the frame shows everything in
   * it.
   */
  method ViewportThenWindowPos(ui: UIState, e: WinPos)
    requires ui.Valid() && e.grid in ui.windows && e.grid in ui.grids && 1 in ui.grids
    modifies ui, ui.windows.Values
    ensures ui.Valid() && e.grid in ui.windows
    ensures ui.windows[e.grid].frameVisible && ui.windows[e.grid].scrollbarVisible
  {
    ui.WindowViewport(Viewport(e.grid, 0, 0));
    assert !ui.windows[e.grid].scrollbarVisible;
    ui.WindowPos(e);
  }

  /**
   * A show on grid -1 turns wildmenu mode on; the hide that follows closes
   * the wildmenu, not the completion menu, and, with the corrected hide of
   * `PopupmenuHide`, ends wildmenu mode.
   */
  method WildmenuShowThenHide(ui: UIState, items: seq<CompletionItem>, cellRect: Rect)
    requires ui.Valid()
    modifies ui`menus
    ensures ui.Valid()
    ensures !ui.menus.wildmenuShown && !ui.menus.wildmenu.visible
    ensures ui.menus.wildmenu.items == items
    ensures ui.menus.popupmenu == old(ui.menus.popupmenu)
  {
    ui.PopupmenuShow(ShowEvent(items, 0, 0, 0, WildmenuGrid), cellRect);
    assert ui.menus.wildmenuShown;
    ui.PopupmenuHide();
  }
}
