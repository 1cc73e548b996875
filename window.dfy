/**
 * The attachment state of a window hosting one grid (src/ui/window.rs): the
 * container it is docked in, whether it has been promoted to its own top-level
 * surface, the position it was last placed at, the size its frame requests,
 * whether the frame is shown, and its scrollbar. The widgets themselves are
 * not modelled; a widget's visibility is its own flag, as in GTK, so hiding
 * the frame does not change whether the scrollbar inside it is marked shown.
 */
module UiWindow {
  import opened Wrappers
  import opened FloatGeometry

  /** The two containers a window frame can be put in. */
  datatype Container = Docked | Float

  /** The scrollbar adjustment, as `gtk::Adjustment::configure` receives it. */
  datatype Adjustment = Adjustment(
    value: real, lower: real, upper: real,
    stepIncrement: real, pageIncrement: real, pageSize: real)

  /** Everything about a window that its methods can change, as one value. */
  datatype WindowState = WindowState(
    parent: Container, external: bool, x: real, y: real, framePos: (int, int),
    sizeRequest: Option<(int, int)>, frameVisible: bool, scrollbarVisible: bool,
    adjustment: Adjustment)

  /** The state of a window `Window::new` has just put in `fixed`. */
  function InitialState(fixed: Container): WindowState {
    WindowState(fixed, false, 0.0, 0.0, (0, 0), None, false, false, Adjustment(0.0, 0.0, 0.0, 0.0, 0.0, 0.0))
  }

  /**
   * The state after `set_parent(fixed)` and then `set_position(x, y, width,
   * height)`: in `fixed`, not external, at (x, y), framed at the pixel grid and
   * requesting the covering whole-pixel size; visibility and the scrollbar
   * are kept.
   */
  function Placed(s: WindowState, fixed: Container, x: real, y: real, width: real, height: real): WindowState {
    s.(parent := fixed, external := false, x := x, y := y,
       framePos := (FloorI32(x), FloorI32(y)),
       sizeRequest := Some((CeilI32(width), CeilI32(height))))
  }

  class Window {
    /** The container the frame belongs to (`parent`). */
    var parent: Container
    /** Whether the frame lives in its own top-level window (`external_win.is_some()`). */
    var external: bool
    /** The position last given to `set_position`. */
    var x: real
    var y: real
    /** Where the frame sits in its container, in whole pixels. */
    var framePos: (int, int)
    /** The grid the window shows (`grid_id`); no operation reassigns it. */
    const gridId: int
    /** The remote editor's handle for this window (`nvim_win`). */
    const nvimWin: int
    /** The frame's size request in whole pixels; `None` until one is set. */
    var sizeRequest: Option<(int, int)>
    /** Whether the frame itself is shown (`frame.is_visible()`). */
    var frameVisible: bool
    /** Whether the scrollbar is shown, and what it was last configured with. */
    var scrollbarVisible: bool
    var adjustment: Adjustment

    ghost function State(): WindowState
      reads this
    {
      WindowState(parent, external, x, y, framePos, sizeRequest, frameVisible, scrollbarVisible, adjustment)
    }

    /**
     * `Window::new`: a window put in `fixed` at the origin, not external; the
     * frame and the scrollbar are new widgets, so neither is shown yet.
     */
    constructor (win: int, fixed: Container, grid: int)
      ensures parent == fixed && !external
      ensures x == 0.0 && y == 0.0 && framePos == (0, 0)
      ensures gridId == grid && nvimWin == win
      ensures sizeRequest == None && !frameVisible
      ensures !scrollbarVisible && adjustment == Adjustment(0.0, 0.0, 0.0, 0.0, 0.0, 0.0)
      ensures State() == InitialState(fixed)
    {
      parent := fixed;
      external := false;
      x, y := 0.0, 0.0;
      framePos := (0, 0);
      gridId := grid;
      nvimWin := win;
      sizeRequest := None;
      frameVisible := false;
      scrollbarVisible := false;
      adjustment := Adjustment(0.0, 0.0, 0.0, 0.0, 0.0, 0.0);
    }

    /** `set_adjustment`: reconfigures the scrollbar range. */
    method SetAdjustment(value: real, lower: real, upper: real,
                         stepIncrement: real, pageIncrement: real, pageSize: real)
      modifies this`adjustment
      ensures adjustment == Adjustment(value, lower, upper, stepIncrement, pageIncrement, pageSize)
    {
      adjustment := Adjustment(value, lower, upper, stepIncrement, pageIncrement, pageSize);
    }

    method HideScrollbar()
      modifies this`scrollbarVisible
      ensures !scrollbarVisible
    {
      scrollbarVisible := false;
    }

    method ShowScrollbar()
      modifies this`scrollbarVisible
      ensures scrollbarVisible
    {
      scrollbarVisible := true;
    }

    /**
     * `set_parent`: moves the frame into `fixed`. Asking for the container the
     * window is already in changes nothing; otherwise the frame is put at the
     * new container's origin, and the external surface, the remembered
     * position and the size request stay.
     */
    method SetParent(fixed: Container)
      modifies this`parent, this`framePos
      ensures parent == fixed
      ensures old(parent) == fixed ==> unchanged(this)
      ensures old(parent) != fixed ==> State() == old(State()).(parent := fixed, framePos := (0, 0))
    {
      if parent != fixed {
        parent := fixed;
        framePos := (0, 0);
      }
    }

    /** `resize`: sets the frame's size request and nothing else. */
    method Resize(size: (int, int))
      modifies this`sizeRequest
      ensures sizeRequest == Some(size)
    {
      sizeRequest := Some(size);
    }

    /**
     * `set_external`: promotes the frame to its own top-level surface of the
     * given size, which `show_all` shows together with the frame and the
     * scrollbar inside it. When the window is already external nothing
     * changes, so promoting twice is the same as promoting once.
     */
    method SetExternal(size: (int, int))
      modifies this`external, this`sizeRequest, this`frameVisible, this`scrollbarVisible
      ensures external
      ensures old(external) ==> unchanged(this)
      ensures !old(external) ==>
                State() == old(State()).(external := true, sizeRequest := Some(size),
                                         frameVisible := true, scrollbarVisible := true)
    {
      if external {
        return;
      }
      sizeRequest := Some(size);
      external := true;
      frameVisible := true;
      scrollbarVisible := true;
    }

    /**
     * `show`: `show_all` on the frame shows the frame and every widget in it,
     * the scrollbar included, even one `hide_scrollbar` hid.
     */
    method Show()
      modifies this`frameVisible, this`scrollbarVisible
      ensures State() == old(State()).(frameVisible := true, scrollbarVisible := true)
    {
      frameVisible := true;
      scrollbarVisible := true;
    }

    /**
     * `hide`: hides the frame only; the scrollbar keeps its own flag, so a
     * later `show` decides it again.
     */
    method Hide()
      modifies this`frameVisible
      ensures State() == old(State()).(frameVisible := false)
    {
      frameVisible := false;
    }

    /**
     * `set_position`: tears down any external surface, returning the frame to
     * its container, records the exact position, moves the frame to the whole
     * pixel at or before it and requests the whole pixels that cover the size.
     * The container does not change.
     */
    method SetPosition(x': real, y': real, width: real, height: real)
      modifies this`external, this`x, this`y, this`framePos, this`sizeRequest
      ensures State() == Placed(old(State()), parent, x', y', width, height)
    {
      if external {
        external := false;
      }
      x := x';
      y := y';
      framePos := (FloorI32(x'), FloorI32(y'));
      sizeRequest := Some((CeilI32(width), CeilI32(height)));
    }
  }
}
