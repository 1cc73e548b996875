# gnvim UI state, modelled in Dafny

gnvim is a GTK front end for Neovim. Its UI state (`src/ui/state.rs`) receives
the batches of redraw events of Neovim's `ext_linegrid` / `ext_multigrid` UI
protocol. It keeps the following consistent with them:

- the table of grids (size, font, line spacing, active/busy flags, mode, cursor);
- the table of windows that host grids (`src/ui/window.rs`);
- the highlight table and its semantic roles;
- the mode list and the current mode;
- the pending resize that the next `flush` applies;
- the routing of popup-menu events between the completion menu and the
  command-line wildmenu.

It also places floating windows relative to an anchor corner, and asks Neovim
to shrink a float that reaches past the primary grid.

The model is organised as follows:

- `wrappers.dfy`: `Option`.
- `geometry.dfy` (module `FloatGeometry`): the pure float geometry
  (`win_float_anchor_pos`, `win_float_adjust_size`) over exact `real`
  arithmetic. It also holds the Rust casts the handlers use:
  float-to-`i32` saturation, `ceil`, `floor` and truncation.
- `window.dfy` (module `UiWindow`): `Window` as a class. Its fields are the
  container it sits in, whether it is promoted to its own top-level surface,
  the remembered position, the whole-pixel frame position, the size request,
  whether the frame is shown, and the scrollbar's visibility and adjustment.
- `highlight.dfy` (module `Highlights`): the highlight table, and the
  aliasing of highlight-group names to roles.
- `options.dfy` (module `ResizeCoalescing`): how `option_set` events coalesce
  into one pending `ResizeOptions` record.
- `popup.dfy` (module `PopupRouting`): the `wildmenu_shown` routing of
  popup-menu show, select and hide events.
- `state.dfy` (module `UiState`): the `UIState` class, whose fields are the
  grid and window tables, highlights, modes, pending resize, flags and
  outbound request queue. It has one method per redraw handler.
  - Grids are values in a map.
  - Windows are `Window` objects in a map, filed under the id of the grid
    they show. The class invariant `Valid` ties each key to its window's
    grid id, so no window is filed twice. It also keeps every window on an
    existing grid, and the cursor on an existing grid or on grid 1, the
    grid `grid_destroy` falls back to.
  - Every outbound remote call (`spawn_local` of `ui_try_resize` /
    `ui_try_resize_grid`) is a `Request` value appended to `requests`.
- `scenarios.dfy` (module `Scenarios`): event sequences applied to
  `UIState`:
  - a batch of option changes ended by a flush;
  - a float that fits inside the primary grid, and one that reaches past it;
  - a viewport that hides the scrollbar, then a `window_pos` that shows it again;
  - a wildmenu show followed by a hide.

Some things are modelled outside the code itself:

- A handler's `unwrap()` on a map lookup is a `requires` clause. The remote
  editor is trusted to name existing grids, and to create grid 1 before it
  sends events that look up the current grid. With grid 1 present, `Valid`
  already gives that the current grid exists (`CursorOnExistingGrid`).
- The text layer's cell size for a font and line spacing is the constant
  function field `UIState.cellSize`.
- Results of grid internals the state cannot see are method parameters:
  - `calc_size` of the primary grid is the `primarySize` parameter of `Flush`;
  - `get_rect_for_cell` is the `cellRect` parameter of `PopupmenuShow`.

The model differs from the original code in a few places:

- `Window::new` in `src/ui/window.rs:87-92` takes four arguments, but
  `src/ui/state.rs:599-605` passes five. `Window::set_adjustment` takes six
  arguments (`src/ui/window.rs:129-137`), but `src/ui/state.rs:760-768` passes
  seven. The model follows `window.rs` and uses the first six adjustment
  values.
- `hl_attr_define` (`src/ui/state.rs:264-266`) only inserts into the table and
  does not mark highlights changed, so `HlAttrDefine` leaves `hlChanged` alone.
- `popupmenu_hide` (`src/ui/state.rs:514-528`) never clears `wildmenu_shown`;
  `src/ui/state.rs:479` is the only write to it. `UIState.PopupmenuHide` uses
  the corrected hide described under "## Findings", which ends wildmenu mode.
  The code as written is `PopupRouting.HideAsWritten`.

## Model

| member | source | states |
|---|---|---|
| FloatGeometry.ClampZero | src/ui/state.rs:1036-1041 | `f64::max(v, 0.0)` is non-negative, at least `v`, and either `v` or 0 |
| FloatGeometry.Truncate | src/ui/state.rs:678-679 | the float-to-`i64` cast truncates toward zero: the result is within one of `v`, on the side of zero |
| FloatGeometry.SaturateI32 | src/ui/state.rs:173-174 | the float-to-`i32` cast saturates: values inside the 32-bit range are kept, values past either end become that end |
| FloatGeometry.Ceil | src/ui/window.rs:203-204 | `ceil` gives the least integer not below `v` |
| FloatGeometry.CeilI32 | src/ui/state.rs:171-175 | `v.ceil() as i32` stays in the 32-bit range, and is the least integer not below `v` whenever `v` is in that range |
| FloatGeometry.FloorI32 | src/ui/window.rs:200-201 | `v.floor() as i32` stays in the 32-bit range, and is the greatest integer not above `v` whenever `v` is in that range |
| FloatGeometry.TruncateI32 | src/ui/state.rs:488-489 | `v as i32` stays in the 32-bit range, and for a non-negative in-range `v` is its whole part |
| FloatGeometry.AnchorPos | src/ui/state.rs:1028-1049 | the float's top-left corner is never negative; on each axis it is the anchor-relative corner or 0 when that would be negative; when not clamped, the corner named by the anchor (west/east, north/south) lies exactly on the anchor point |
| FloatGeometry.AdjustSize | src/ui/state.rs:1009-1026 | a row suggestion exists iff `grid.rows + y/cell_h > base.rows`, and then it ends the float one row above the base grid's last row and is less than the current rows; a column suggestion exists iff `grid.cols + x/cell_w > base.cols`, and then it ends the float at the base grid's right edge and is less than the current cols |
| FloatGeometry.AnchorPosMonotone | src/ui/state.rs:1028-1049 | moving the anchor origin right or down never moves the float left or up |
| FloatGeometry.AnchorPosTestTable | src/ui/state.rs:1074-1187 | the six expected positions of `test_float_anchor_pos`, e.g. NE with offsets 5 and width 100 at cell (10, 10) gives (5, 105) |
| FloatGeometry.AdjustSizeOnCells | src/ui/state.rs:1009-1026 | for a float at a whole-cell position (col, row), a row suggestion exists iff `grid.rows + row > base.rows` and is `base.rows - row - 1`; a column suggestion exists iff `grid.cols + col > base.cols` and is `base.cols - col` |
| UiWindow.Window.constructor | src/ui/window.rs:87-127 | a new window is in the given container at the origin, not external, shows the given grid, has no size request, and neither its frame nor its scrollbar is shown yet; the adjustment is all zero |
| UiWindow.Window.SetAdjustment | src/ui/window.rs:129-146 | the scrollbar adjustment becomes the six given values |
| UiWindow.Window.HideScrollbar | src/ui/window.rs:148-150 | the scrollbar is hidden, nothing else changes |
| UiWindow.Window.ShowScrollbar | src/ui/window.rs:152-154 | the scrollbar is shown, nothing else changes |
| UiWindow.Window.SetParent | src/ui/window.rs:156-162 | the window ends up in `fixed`; asking for the current container changes nothing at all; otherwise only the container changes and the frame is put at the container's origin; external surface, position and size request are kept |
| UiWindow.Window.Resize | src/ui/window.rs:164-166 | only the size request changes |
| UiWindow.Window.SetExternal | src/ui/window.rs:168-189 | the window ends up external; if it already was, nothing changes (idempotent); otherwise the size request becomes the given size and `show_all` shows the frame and the scrollbar, and nothing else changes |
| UiWindow.Window.SetPosition | src/ui/window.rs:191-205 | any external surface is torn down; the position is recorded exactly, the frame moves to the floor of it and the size request is the ceiling of the size; the container, visibility and the scrollbar are unchanged |
| UiWindow.Window.Show | src/ui/window.rs:207-209 | `show_all` shows the frame and the scrollbar in it, even a hidden one; nothing else changes |
| UiWindow.Window.Hide | src/ui/window.rs:211-213 | only the frame is hidden; the scrollbar keeps its own flag |
| Highlights.InitialDefs | src/ui/state.rs:248-252 | a fresh table has a definition for id 0 (which `default_colors_set` unwraps) and no roles |
| Highlights.Define | src/ui/state.rs:264-266 | only the definition of `id` changes, to `hl`; roles and defaults are kept |
| Highlights.SetGroupByName | src/ui/state.rs:268-291 | every role the name feeds (by `RolesOf`) maps to the id, every other role keeps its id, and definitions and defaults are untouched |
| Highlights.RolesOf | src/ui/state.rs:269-289 | a role is fed by a name iff that name is the role's one source name (`SourceName`), so the table is read in both directions |
| Highlights.UnknownNameIsNoOp | src/ui/state.rs:290 | a name outside the alias table leaves the whole table unchanged |
| Highlights.AliasTable | src/ui/state.rs:269-289 | "Pmenu" feeds Pmenu and Wildmenu, "PmenuSel" feeds PmenuSel and WildmenuSel, "TabLineSel" feeds TablineSel and CmdlineBorder, "Normal" feeds Cmdline; the match is exact and case-sensitive |
| Highlights.EachRoleHasOneName | src/ui/state.rs:269-289 | distinct names feed disjoint sets of roles, so each role has exactly one source name |
| Highlights.SetDefaultColors | src/ui/state.rs:238-252 | the three defaults are replaced, id 0 takes them as its colours (style flags kept), and every other definition and every role is untouched |
| ResizeCoalescing.FontOf | src/ui/state.rs:299 | the parsed font when parsing succeeded, else the default font |
| ResizeCoalescing.Coalesce | src/ui/state.rs:296-335 | a font change replaces only the font of the pending record, a line-spacing change only the line spacing, the record being seeded from the primary grid when nothing is pending; an unsupported option leaves the pending record as it was |
| ResizeCoalescing.CoalesceAllSnoc | src/ui/state.rs:296-335 | coalescing a batch and then one more event is coalescing the longer batch |
| ResizeCoalescing.CoalesceAllKeepsLast | src/ui/state.rs:296-335 | after any batch, one record is pending iff one was pending before or some event scheduled a resize, and it holds the last font and the last line spacing given, each falling back to the starting record |
| ResizeCoalescing.LastFontNone | src/ui/state.rs:296-335 | a batch without font or line-spacing changes gives no last font |
| ResizeCoalescing.LastLineSpaceNone | src/ui/state.rs:296-335 | a batch without font or line-spacing changes gives no last line spacing |
| PopupRouting.AsI32 | src/ui/state.rs:493 | the `i64` to `i32` cast wraps into the 32-bit range, is congruent modulo 2^32, and keeps in-range values |
| PopupRouting.Show | src/ui/state.rs:477-512 | a show on grid -1 sets `wildmenu_shown` and fills and shows the wildmenu; any other show fills, anchors, selects and shows the completion menu and keeps the flag; the other surface is untouched |
| PopupRouting.Select | src/ui/state.rs:530-536 | the selection moves on the wildmenu iff `wildmenu_shown`, else on the completion menu; the flag and the other surface are unchanged |
| PopupRouting.HideAsWritten | src/ui/state.rs:514-528 | the hide goes to the wildmenu iff `wildmenu_shown`, else to the completion menu, and the flag is never cleared |
| PopupRouting.HideAsWrittenLeavesCompletionMenuOpen | src/ui/state.rs:477-528 | as written, wildmenu show, hide, completion show, hide leaves the completion menu visible |
| PopupRouting.Hide | src/ui/state.rs:514-528 | the corrected hide of "## Findings", not the code as written: hides the surface `wildmenu_shown` names, and hiding the wildmenu ends wildmenu mode, so afterwards the flag is clear |
| PopupRouting.ReplayKeepsRouted | src/ui/state.rs:477-536 | with the corrected hide of "## Findings", every stream of show, select and hide events keeps "wildmenu mode is on exactly while the wildmenu is visible" |
| PopupRouting.HideClosesWhatShowOpened | src/ui/state.rs:477-528 | with the corrected hide of "## Findings", after a hide, a show then a hide closes exactly the surface the show opened and leaves wildmenu mode off |
| PopupRouting.HideClosesCompletionMenuAfterWildmenu | src/ui/state.rs:477-528 | with the corrected hide of "## Findings", on the stream that shows the defect, both menus end hidden |
| UiState.NewGrid | src/ui/state.rs:178-190 | a new grid has the given size, font and line spacing, draws with the current mode if any, starts inactive and not busy, with the cursor at (0, 0) |
| UiState.MapGrids | src/ui/state.rs:345-349 | every grid is replaced by `f` of itself and no id is added or dropped |
| UiState.FloatResizeRequest | src/ui/state.rs:672-687 | a `ui_try_resize_grid` for the float is queued iff either axis has a suggestion; it asks for the suggested count on an axis that has one and the current count on the other, truncated |
| UiState.ViewportScrollbar | src/ui/state.rs:745-770 | the scrollbar is hidden iff the buffer's line count fits in the grid's rows; otherwise the thumb is at `topline` cell heights and the range is `linecount` cell heights, so the thumb sits at `topline/linecount` of the range; the page is the grid's pixel height, that is `rows/linecount` of the range, and step and page increments equal the page size |
| UiState.CellRectPixels | src/ui/state.rs:608-612 | a `WindowPos` cell rectangle in pixels is non-negative and is its cell counts times the primary grid's cell size |
| UiState.UIState.CursorOnExistingGrid | src/ui/state.rs:219-221 | once grid 1 exists, the current grid and every grid with a window exist |
| UiState.UIState.constructor | src/ui/state.rs:41-87 | a fresh state has no grids and no windows, the cursor on grid 1, the initial highlight table, nothing pending and no requests |
| UiState.UIState.Metrics | src/ui/state.rs:659-660 | a grid's metrics carry its size in cells |
| UiState.UIState.PrimaryOptions | src/ui/state.rs:303-309 | the seed of a pending resize exists iff grid 1 does, and carries grid 1's font and line spacing |
| UiState.UIState.HostingWindow | src/ui/state.rs:167-169 | the window found for a grid is one of the windows and shows that grid; one is found iff some window shows it |
| UiState.UIState.FloatAnchorOrigin | src/ui/state.rs:620-631 | the origin is (0, 0) when the anchor grid is grid 1 or the float itself, and otherwise the anchor window's position; it is never negative |
| UiState.UIState.GridCursorGoto | src/ui/state.rs:124-154 | moving to another grid deactivates the old current grid, activates the new one and makes it current; on the current grid only the cursor moves; no other grid changes |
| UiState.UIState.GridResize | src/ui/state.rs:156-195 | a known grid changes only its size, and its window, if any, only its size request, to the ceiling of the grid's new pixel size; an unknown id gets a new grid with the current font, line spacing and mode; no other grid or window changes |
| UiState.UIState.GridDestroy | src/ui/state.rs:207-222 | the grid and the window filed under its id are removed if present (an absent id changes neither table) and the cursor returns to grid 1 |
| UiState.UIState.DefaultColorsSet | src/ui/state.rs:238-262 | the table is updated as `SetDefaultColors` says and highlights are marked changed |
| UiState.UIState.HlAttrDefine | src/ui/state.rs:264-266 | the table is updated as `Define` says and the changed flag is left alone |
| UiState.UIState.HlGroupSet | src/ui/state.rs:268-294 | the roles are updated as `SetGroupByName` says, and highlights are marked changed even for an unknown name |
| UiState.UIState.OptionSet | src/ui/state.rs:296-335 | the pending record becomes `Coalesce` of the old one, seeded from grid 1; a font or line-spacing change also becomes the value new grids use |
| UiState.UIState.ModeInfoSet | src/ui/state.rs:337-339 | the mode list becomes the given list |
| UiState.UIState.ModeChange | src/ui/state.rs:341-350 | the indexed mode becomes current and every grid takes it |
| UiState.UIState.SetBusy | src/ui/state.rs:352-356 | every grid takes the busy flag |
| UiState.UIState.ApplyToGrids | src/ui/state.rs:345-349 | the loop over all grids replaces each by `f` of itself |
| UiState.UIState.Flush | src/ui/state.rs:358-475 | a pending resize is consumed: every grid takes its font and line spacing, the delayed-resize timer is cancelled, exactly one `ui_try_resize` is queued, and the auxiliary surfaces take the options; with nothing pending, no request is queued and grids stay; afterwards nothing is pending and the changed flag is clear |
| UiState.UIState.MenuAnchor | src/ui/state.rs:484-489 | the completion-menu anchor keeps the cell rectangle's size and is shifted by the whole pixels of the hosting window's position (`as i32`); a wildmenu show leaves it alone |
| UiState.UIState.PopupmenuShow | src/ui/state.rs:477-512 | the menus change as `Show` says, and the completion menu is anchored at the cell's rectangle shifted by the window's position |
| UiState.UIState.PopupmenuSelect | src/ui/state.rs:530-536 | the menus change as `Select` says |
| UiState.UIState.PopupmenuHide | src/ui/state.rs:514-528 | the menus change as the corrected `Hide` of "## Findings" says: the surface `wildmenu_shown` names is hidden, and a wildmenu hide also ends wildmenu mode |
| UiState.UIState.PlaceWindow | src/ui/state.rs:589-615 | the grid's window is reparented, or created in the container, then placed and shown with its scrollbar; no other window changes |
| UiState.UIState.WindowPos | src/ui/state.rs:580-618 | the grid's window is docked, placed at the event's rectangle in grid 1's cell size and shown with its scrollbar; the grid takes the rectangle's size in cells; no other window changes |
| UiState.UIState.WindowFloatPos | src/ui/state.rs:633-691 | the float's window is placed at `AnchorPos` from `FloatAnchorOrigin` at its current pixel size and shown with its scrollbar; exactly the `FloatResizeRequest` is queued; no other window changes |
| UiState.UIState.WindowExternalPos | src/ui/state.rs:693-732 | the grid's window, created in the float container if missing (its whole state then given), becomes external with the ceiling of the grid's pixel size and is shown with its scrollbar; an already external window does not change |
| UiState.UIState.WindowHide | src/ui/state.rs:734-736 | only the frame of the grid's window is hidden; no other window changes |
| UiState.UIState.WindowClose | src/ui/state.rs:738-743 | the window filed under the id is removed if present |
| UiState.UIState.WindowViewport | src/ui/state.rs:745-770 | for a grid with a window, the scrollbar is hidden or shown and configured as `ViewportScrollbar` decides; an event for a grid without a window changes nothing |
| Scenarios.OptionSetsThenFlush | src/ui/state.rs:296-401 | a batch of option changes followed by a flush queues exactly one `ui_try_resize` iff a resize was pending or scheduled, and leaves every grid with the last font and last line spacing given |
| Scenarios.PrimaryAndFloatGrids | src/ui/state.rs:156-195 | resizing two unknown grids creates exactly those grids at the given sizes |
| Scenarios.FloatThatFits | src/ui/state.rs:633-691 | a 40 x 10 float anchored NW at cell (0, 0) of an 80 x 24 primary grid sits at (0, 0) and queues no request |
| Scenarios.FloatPastBottom | src/ui/state.rs:633-691 | the same float anchored at row 20 is in the float container and shown at row 20 at its full size, and exactly one request asks to shrink it to 40 x 3 |
| Scenarios.ViewportThenWindowPos | src/ui/state.rs:580-618 | a scrollbar hidden by a viewport whose lines fit is shown again by the next `window_pos`, together with its frame |
| Scenarios.WildmenuShowThenHide | src/ui/state.rs:477-528 | a wildmenu show and a hide close the wildmenu and leave the completion menu as it was; with the corrected hide, wildmenu mode ends too |

## Left out

- GTK widget work is not modelled: frames, overlays, `Fixed::put`/`move_`/`remove` and drawing. The model keeps only the values these widgets are given, and the visibility flags of a window's frame and scrollbar.
- CSS generation and loading in `flush` (`src/ui/state.rs:403-474`) is left out, as is the styling of the popup menu, command line and tab line. Only clearing `hl_changed` is modelled.
- Outbound calls are queued values. Their delivery and failure are not modelled.
- The delayed resize timer is scheduled outside `src/ui/state.rs`, and the code that schedules it is not part of this model. `resizeSourceId` is therefore only ever set by whoever builds the state. `Flush` cancels a timer when one is set (`src/ui/state.rs:377-380`), but no modelled event sets one.
- `attach_grid_events` (mouse and scroll callbacks), `grid_line`, `grid_clear`, `grid_scroll` and `Grid::flush` are left out. They are grid drawing or wiring of foreign closures.
- The grid internals are opaque: `Grid::redraw`, `calc_size`, `get_rect_for_cell` and the cell metrics the text layer measures.
- `Font::from_guifont` is opaque: the parsed font, or its failure, arrives in the event.
- The popup menu, command line, tab line and cursor tooltip internals are opaque. `set_items` and `wildmenu_show` are abstracted to the surface's item list being replaced and the surface becoming visible; the tooltip gravity is not modelled.
- The dispatchers `handle_redraw_event` and `handle_gnvim_event` are not modelled; each event they route to a modelled handler is modelled by that handler.
- `set_title`, `tabline_update`, `msg_set_pos` and the command-line handlers delegate to components outside this model.
- Floating point is modelled as exact `real` arithmetic: no IEEE rounding, no NaN and no infinities.
- FloatGeometry.MetricsOf: a grid's pixel size is its cell count times the cell size, and cell sizes are positive. This is an idealisation of `get_grid_metrics`, whose source is not part of this model.
- FloatGeometry.Truncate: the `as i64` cast is modelled as truncation only, without saturation at the 64-bit range.
- UiState.UIState.MenuAnchor: the `i32` additions `rect.x += …` are unbounded here, so a debug-build overflow panic is not modelled.
- UiState.UIState.WindowExternalPos: the `grid.resize` call at the end only refreshes the grid's cell metrics. It does not change the grid's size, so the model leaves the grid table alone.
- UiState.UIState.constructor: the starting values are assumed: empty tables, cursor on grid 1, nothing pending and the initial highlight table. The code that builds the UI state is not part of this model.
- UiState.NewGrid: a new grid starts inactive and not busy with the cursor at (0, 0). The grid constructor that sets these is not part of this model.
- UiState.UIState.PopupmenuHide: models the corrected hide of "## Findings", which clears `wildmenu_shown`; the code as written never clears it, and `PopupRouting.HideAsWritten` models that.
- Scenarios.WildmenuShowThenHide: "ends wildmenu mode" holds for the corrected hide only; as written the flag stays set.
- UiState.UIState.PopupmenuShow: the popup menu's item list, colours and width are reduced to the items, selection and anchor.
- Highlights: colours are exact reals, and the highlight record keeps only the fields the state reads.
- UiWindow.Window.constructor: the CSS provider argument and the GTK frame, overlay and scrollbar are not modelled. The container is an enumeration of the two containers.

## Findings

| source | as written | input that shows it | evidently intended | confidence | as-written member | corrected member |
|---|---|---|---|---|---|---|
| src/ui/state.rs:477-528 | `popupmenu_show` sets `wildmenu_shown` for a grid -1 show, but nothing ever clears it, so every later hide and select goes to the wildmenu | `PopupmenuShow` on grid -1, `PopupmenuHide`, `PopupmenuShow` on grid 2, `PopupmenuHide`: the completion menu stays visible | hiding the wildmenu ends wildmenu mode, so the next completion menu is hidden by the next hide | not executed | PopupRouting.HideAsWrittenLeavesCompletionMenuOpen | PopupRouting.Hide |
