/**
 * The highlight table the UI state maintains: highlight definitions by id, the
 * default colours, and the semantic roles (`HlGroup`) that `hl_group_set`
 * aliases to highlight ids by the name of a highlight group.
 */
module Highlights {
  import opened Wrappers

  datatype Color = Color(r: real, g: real, b: real)

  /** One highlight definition; `None` colours fall back to the defaults. */
  datatype Highlight = Highlight(
    foreground: Option<Color>, background: Option<Color>, special: Option<Color>,
    reverse: bool, italic: bool, bold: bool, underline: bool, undercurl: bool)

  /** The semantic roles the auxiliary surfaces take their colours from. */
  datatype HlGroup =
    | Pmenu | PmenuSel | Wildmenu | WildmenuSel
    | Tabline | TablineSel | TablineFill
    | Cmdline | CmdlineBorder | MsgSeparator

  /** `HlDefs`: definitions by id, the role map and the default colours. */
  datatype HlDefs = HlDefs(
    defs: map<int, Highlight>,
    groups: map<HlGroup, int>,
    defaultFg: Color, defaultBg: Color, defaultSp: Color)

  const White := Color(1.0, 1.0, 1.0)
  const Black := Color(0.0, 0.0, 0.0)
  const Plain := Highlight(None, None, None, false, false, false, false, false)

  /** A fresh table: id 0 holds the default colours, and no role is set. */
  function InitialDefs(): (h: HlDefs)
    ensures 0 in h.defs && h.groups == map[]
  {
    HlDefs(map[0 := Plain], map[], Black, White, Black)
  }

  /** The one highlight-group name each role takes its colours from. */
  function SourceName(g: HlGroup): string {
    match g
    case Pmenu | Wildmenu => "Pmenu"
    case PmenuSel | WildmenuSel => "PmenuSel"
    case Tabline => "TabLine"
    case TablineSel | CmdlineBorder => "TabLineSel"
    case TablineFill => "TabLineFill"
    case Cmdline => "Normal"
    case MsgSeparator => "MsgSeparator"
  }

  /**
   * The roles a highlight-group name feeds, by exact match: "Pmenu" also
   * colours the wildmenu, "PmenuSel" the wildmenu selection, "TabLineSel"
   * also the command-line border, and "Normal" the command line. Any other
   * name feeds no role.
   */
  function RolesOf(name: string): (r: set<HlGroup>)
    ensures forall g :: g in r <==> SourceName(g) == name
  {
    if name == "Pmenu" then {Pmenu, Wildmenu}
    else if name == "PmenuSel" then {PmenuSel, WildmenuSel}
    else if name == "TabLine" then {Tabline}
    else if name == "TabLineSel" then {TablineSel, CmdlineBorder}
    else if name == "TabLineFill" then {TablineFill}
    else if name == "Normal" then {Cmdline}
    else if name == "MsgSeparator" then {MsgSeparator}
    else {}
  }

  /** `HlDefs::insert`: the definition of `id` becomes `hl`; nothing else changes. */
  function Define(h: HlDefs, id: int, hl: Highlight): (r: HlDefs)
    ensures r.defs.Keys == h.defs.Keys + {id} && r.defs[id] == hl
    ensures forall i :: i in h.defs && i != id ==> r.defs[i] == h.defs[i]
    ensures r.groups == h.groups
    ensures (r.defaultFg, r.defaultBg, r.defaultSp) == (h.defaultFg, h.defaultBg, h.defaultSp)
  {
    h.(defs := h.defs[id := hl])
  }

  /**
   * The role map update of `hl_group_set`: every role `name` feeds now maps to
   * `id`, every other role keeps its id, and the definitions are untouched.
   */
  function SetGroupByName(h: HlDefs, name: string, id: int): (r: HlDefs)
    ensures r.groups.Keys == h.groups.Keys + RolesOf(name)
    ensures forall g :: g in RolesOf(name) ==> r.groups[g] == id
    ensures forall g :: g in h.groups && g !in RolesOf(name) ==> r.groups[g] == h.groups[g]
    ensures r.defs == h.defs
    ensures (r.defaultFg, r.defaultBg, r.defaultSp) == (h.defaultFg, h.defaultBg, h.defaultSp)
  {
    match name
    case "Pmenu" => h.(groups := h.groups[Pmenu := id][Wildmenu := id])
    case "PmenuSel" => h.(groups := h.groups[PmenuSel := id][WildmenuSel := id])
    case "TabLine" => h.(groups := h.groups[Tabline := id])
    case "TabLineSel" => h.(groups := h.groups[TablineSel := id][CmdlineBorder := id])
    case "TabLineFill" => h.(groups := h.groups[TablineFill := id])
    case "Normal" => h.(groups := h.groups[Cmdline := id])
    case "MsgSeparator" => h.(groups := h.groups[MsgSeparator := id])
    case _ => h
  }

  /** An unrecognised group name leaves the whole table as it was. */
  lemma UnknownNameIsNoOp(h: HlDefs, name: string, id: int)
    requires RolesOf(name) == {}
    ensures SetGroupByName(h, name, id) == h
  {
    var r := SetGroupByName(h, name, id);
    assert r.groups.Keys == h.groups.Keys;
    assert forall g :: g in r.groups ==> r.groups[g] == h.groups[g];
  }

  /** The aliasing table itself. */
  lemma AliasTable()
    ensures RolesOf("Pmenu") == {Pmenu, Wildmenu}
    ensures RolesOf("PmenuSel") == {PmenuSel, WildmenuSel}
    ensures RolesOf("TabLineSel") == {TablineSel, CmdlineBorder}
    ensures RolesOf("Normal") == {Cmdline}
    ensures RolesOf("pmenu") == {} && RolesOf("Pmenu ") == {}
  {
  }

  /**
   * Double aliasing never makes two names compete for a role: distinct names
   * feed disjoint sets of roles, so each role has exactly one source name.
   */
  lemma EachRoleHasOneName(n1: string, n2: string)
    requires n1 != n2
    ensures RolesOf(n1) !! RolesOf(n2)
  {
  }

  /**
   * The table update of `default_colors_set`: the three defaults are replaced,
   * id 0's colours are set to them (its style flags kept), and every other
   * definition and the role map are untouched.
   */
  function SetDefaultColors(h: HlDefs, fg: Color, bg: Color, sp: Color): (r: HlDefs)
    requires 0 in h.defs
    ensures r.defaultFg == fg && r.defaultBg == bg && r.defaultSp == sp
    ensures r.defs.Keys == h.defs.Keys
    ensures r.defs[0] == h.defs[0].(foreground := Some(fg), background := Some(bg), special := Some(sp))
    ensures forall i :: i in h.defs && i != 0 ==> r.defs[i] == h.defs[i]
    ensures r.groups == h.groups
  {
    var zero := h.defs[0];
    HlDefs(h.defs[0 := zero.(foreground := Some(fg), background := Some(bg), special := Some(sp))],
           h.groups, fg, bg, sp)
  }
}
