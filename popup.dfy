/**
 * Routing of the popup-menu events (src/ui/state.rs): one `popupmenu_show`
 * stream serves both the completion menu and the command-line wildmenu, told
 * apart by the grid `-1`, and `wildmenu_shown` decides where later select and
 * hide events go. What each surface shows is kept as a small record; its
 * drawing is not modelled.
 */
module PopupRouting {
  import opened Wrappers

  /** The grid id that marks a show event as the wildmenu's. */
  const WildmenuGrid := -1

  /** A `gdk::Rectangle` in window pixels. */
  datatype Rect = Rect(x: int, y: int, width: int, height: int)

  datatype CompletionItem = CompletionItem(word: string, kind: string, menu: string, info: string)

  /** `PopupmenuShow`. */
  datatype ShowEvent = ShowEvent(items: seq<CompletionItem>, selected: int, row: int, col: int, grid: int)

  /** What one of the two surfaces (completion menu, wildmenu) shows. */
  datatype Surface = Surface(visible: bool, items: seq<CompletionItem>, selected: int, anchor: Option<Rect>)

  /**
   * `wildmenu_shown` together with the completion menu (`popupmenu`) and the
   * command line's wildmenu.
   */
  datatype Menus = Menus(wildmenuShown: bool, popupmenu: Surface, wildmenu: Surface)

  const Hidden := Surface(false, [], -1, None)
  const InitialMenus := Menus(false, Hidden, Hidden)

  /** Rust's `as i32` on an `i64`: wrap-around into the 32-bit range. */
  function AsI32(v: int): (r: int)
    ensures -0x8000_0000 <= r < 0x8000_0000
    ensures (v - r) % 0x1_0000_0000 == 0
    ensures -0x8000_0000 <= v < 0x8000_0000 ==> r == v
  {
    (v + 0x8000_0000) % 0x1_0000_0000 - 0x8000_0000
  }

  /**
   * `popupmenu_show`. A wildmenu show sets `wildmenu_shown` and shows the items
   * in the wildmenu; any other show fills the completion menu, anchors it at
   * `anchor`, selects `selected` and shows it, leaving `wildmenu_shown` as it
   * was. The other surface is untouched either way.
   */
  function Show(m: Menus, e: ShowEvent, anchor: Rect): (r: Menus)
    ensures e.grid == WildmenuGrid ==>
              && r.wildmenuShown
              && r.wildmenu == m.wildmenu.(visible := true, items := e.items)
              && r.popupmenu == m.popupmenu
    ensures e.grid != WildmenuGrid ==>
              && r.wildmenuShown == m.wildmenuShown
              && r.popupmenu == Surface(true, e.items, AsI32(e.selected), Some(anchor))
              && r.wildmenu == m.wildmenu
  {
    if e.grid == WildmenuGrid then
      m.(wildmenuShown := true, wildmenu := m.wildmenu.(visible := true, items := e.items))
    else
      m.(popupmenu := Surface(true, e.items, AsI32(e.selected), Some(anchor)))
  }

  /** `popupmenu_select`: moves the selection of the surface `wildmenu_shown` names. */
  function Select(m: Menus, selected: int): (r: Menus)
    ensures r.wildmenuShown == m.wildmenuShown
    ensures m.wildmenuShown ==> r == m.(wildmenu := m.wildmenu.(selected := AsI32(selected)))
    ensures !m.wildmenuShown ==> r == m.(popupmenu := m.popupmenu.(selected := AsI32(selected)))
  {
    if m.wildmenuShown then m.(wildmenu := m.wildmenu.(selected := AsI32(selected)))
    else m.(popupmenu := m.popupmenu.(selected := AsI32(selected)))
  }

  /**
   * `popupmenu_hide` as the source writes it: hides the surface
   * `wildmenu_shown` names, but never clears the flag.
   */
  function HideAsWritten(m: Menus): (r: Menus)
    ensures r.wildmenuShown == m.wildmenuShown
    ensures m.wildmenuShown ==> r == m.(wildmenu := m.wildmenu.(visible := false))
    ensures !m.wildmenuShown ==> r == m.(popupmenu := m.popupmenu.(visible := false))
  {
    if m.wildmenuShown then m.(wildmenu := m.wildmenu.(visible := false))
    else m.(popupmenu := m.popupmenu.(visible := false))
  }

  /**
   * `popupmenu_hide` as intended: hiding the wildmenu also ends wildmenu mode,
   * so the next completion menu is routed to the completion surface again.
   */
  function Hide(m: Menus): (r: Menus)
    ensures !r.wildmenuShown
    ensures m.wildmenuShown ==> r == m.(wildmenuShown := false, wildmenu := m.wildmenu.(visible := false))
    ensures !m.wildmenuShown ==> r == m.(popupmenu := m.popupmenu.(visible := false))
  {
    if m.wildmenuShown then m.(wildmenuShown := false, wildmenu := m.wildmenu.(visible := false))
    else m.(popupmenu := m.popupmenu.(visible := false))
  }

  /**
   * As written, the completion menu can no longer be hidden once a wildmenu
   * has been shown and hidden: the hide is routed to the wildmenu.
   */
  lemma HideAsWrittenLeavesCompletionMenuOpen(anchor: Rect)
    ensures var wild := ShowEvent([], -1, 0, 0, WildmenuGrid);
            var pmenu := ShowEvent([], 0, 3, 4, 2);
            var m := HideAsWritten(Show(HideAsWritten(Show(InitialMenus, wild, anchor)), pmenu, anchor));
            m.popupmenu.visible
  {
  }

  /**
   * The routing invariant the intended `Hide` keeps: wildmenu mode is on
   * exactly while the wildmenu is visible.
   */
  ghost predicate Routed(m: Menus) {
    m.wildmenuShown <==> m.wildmenu.visible
  }

  /** The popup-menu events as the redraw stream delivers them. */
  datatype MenuEvent = ShowMenu(e: ShowEvent, anchor: Rect) | SelectItem(selected: int) | HideMenu

  function Step(m: Menus, ev: MenuEvent): Menus {
    match ev
    case ShowMenu(e, anchor) => Show(m, e, anchor)
    case SelectItem(s) => Select(m, s)
    case HideMenu => Hide(m)
  }

  function Replay(m: Menus, evs: seq<MenuEvent>): Menus
    decreases |evs|
  {
    if evs == [] then m else Replay(Step(m, evs[0]), evs[1..])
  }

  /** Every stream of popup-menu events keeps the routing invariant. */
  lemma {:induction false} ReplayKeepsRouted(m: Menus, evs: seq<MenuEvent>)
    requires Routed(m)
    ensures Routed(Replay(m, evs))
    decreases |evs|
  {
    if evs != [] {
      var m' := Step(m, evs[0]);
      assert Routed(m');
      ReplayKeepsRouted(m', evs[1..]);
    }
  }

  /**
   * With the intended `Hide`, a hide that follows a show (after any earlier
   * hide) closes exactly the surface that show opened.
   */
  lemma HideClosesWhatShowOpened(m: Menus, e: ShowEvent, anchor: Rect)
    ensures var r := Hide(Show(Hide(m), e, anchor));
            (e.grid == WildmenuGrid ==> !r.wildmenu.visible && !r.wildmenuShown) &&
            (e.grid != WildmenuGrid ==> !r.popupmenu.visible && !r.wildmenuShown)
  {
  }

  /** The stream that showed the defect is routed correctly by the intended `Hide`. */
  lemma HideClosesCompletionMenuAfterWildmenu(anchor: Rect)
    ensures var wild := ShowEvent([], -1, 0, 0, WildmenuGrid);
            var pmenu := ShowEvent([], 0, 3, 4, 2);
            var m := Hide(Show(Hide(Show(InitialMenus, wild, anchor)), pmenu, anchor));
            !m.popupmenu.visible && !m.wildmenu.visible
  {
  }
}
