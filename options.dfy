/**
 * Resize-on-flush coalescing of `option_set` (src/ui/state.rs): font and
 * line-spacing changes are collected into one pending `ResizeOptions` record
 * that the next flush applies.
 */
module ResizeCoalescing {
  import opened Wrappers

  /** A font as the text layer parsed it; `DefaultFont` is `Font::default()`. */
  datatype Font = DefaultFont | Font(guifont: string)

  /** `ResizeOptions`: the font and line spacing a flush will apply. */
  datatype ResizeOptions = ResizeOptions(font: Font, lineSpace: int)

  /**
   * `OptionSet`: a `guifont` change carries the result of parsing the option
   * (`None` when the text layer rejects it), a `linespace` change its value;
   * every other option is not supported.
   */
  datatype OptionEvent =
    | GuiFont(parsed: Option<Font>)
    | LineSpace(value: int)
    | NotSupported(name: string)

  /** `Font::from_guifont(..).unwrap_or(Font::default())`. */
  function FontOf(parsed: Option<Font>): (f: Font)
    ensures parsed.Some? ==> f == parsed.value
    ensures parsed.None? ==> f == DefaultFont
  {
    parsed.GetOr(DefaultFont)
  }

  /** True of the events that schedule a resize. */
  predicate Schedules(e: OptionEvent) {
    e.GuiFont? || e.LineSpace?
  }

  /**
   * The pending record after one `option_set`. When nothing is pending the
   * record is seeded from the primary grid's font and line spacing (`primary`),
   * so that changing one field does not clobber the other. A font change
   * replaces only the font, a line-spacing change only the line spacing, and an
   * unsupported option leaves the pending record as it was.
   */
  function Coalesce(pending: Option<ResizeOptions>, primary: Option<ResizeOptions>,
                    e: OptionEvent): (r: Option<ResizeOptions>)
    requires Schedules(e) ==> pending.Some? || primary.Some?
    ensures !Schedules(e) ==> r == pending
    ensures Schedules(e) ==> r.Some?
    ensures e.GuiFont? ==>
              var before := if pending.Some? then pending.value else primary.value;
              r == Some(before.(font := FontOf(e.parsed)))
    ensures e.LineSpace? ==>
              var before := if pending.Some? then pending.value else primary.value;
              r == Some(before.(lineSpace := e.value))
  {
    match e
    case NotSupported(_) => pending
    case GuiFont(parsed) =>
      var opts := if pending.Some? then pending.value else primary.value;
      Some(opts.(font := FontOf(parsed)))
    case LineSpace(v) =>
      var opts := if pending.Some? then pending.value else primary.value;
      Some(opts.(lineSpace := v))
  }

  /** The pending record after a run of `option_set` events, in order. */
  function CoalesceAll(pending: Option<ResizeOptions>, primary: Option<ResizeOptions>,
                       es: seq<OptionEvent>): Option<ResizeOptions>
    requires pending.Some? || primary.Some?
    decreases |es|
  {
    if es == [] then pending
    else CoalesceAll(Coalesce(pending, primary, es[0]), primary, es[1..])
  }

  /** The font of the last font change in `es`, or `fallback` if there is none. */
  function LastFont(es: seq<OptionEvent>, fallback: Font): Font
    decreases |es|
  {
    if es == [] then fallback
    else if es[|es| - 1].GuiFont? then FontOf(es[|es| - 1].parsed)
    else LastFont(es[..|es| - 1], fallback)
  }

  /** The value of the last line-spacing change in `es`, or `fallback`. */
  function LastLineSpace(es: seq<OptionEvent>, fallback: int): int
    decreases |es|
  {
    if es == [] then fallback
    else if es[|es| - 1].LineSpace? then es[|es| - 1].value
    else LastLineSpace(es[..|es| - 1], fallback)
  }

  lemma CoalesceAllSnoc(pending: Option<ResizeOptions>, primary: Option<ResizeOptions>,
                        es: seq<OptionEvent>, e: OptionEvent)
    requires pending.Some? || primary.Some?
    ensures CoalesceAll(pending, primary, es).Some? || primary.Some?
    ensures CoalesceAll(pending, primary, es + [e])
         == Coalesce(CoalesceAll(pending, primary, es), primary, e)
    decreases |es|
  {
    if es != [] {
      assert (es + [e])[1..] == es[1..] + [e];
      CoalesceAllSnoc(Coalesce(pending, primary, es[0]), primary, es[1..], e);
    }
  }

  /**
   * However many font and line-spacing changes arrive before a flush, they
   * leave one pending record: present exactly when one was pending before or
   * some event scheduled a resize, holding the last font and the last line
   * spacing given, and the starting record's value for a field no event
   * changed (the pending record's, or else the primary grid's).
   */
  lemma {:induction false} CoalesceAllKeepsLast(pending: Option<ResizeOptions>,
                                                primary: Option<ResizeOptions>,
                                                es: seq<OptionEvent>)
    requires pending.Some? || primary.Some?
    ensures var r := CoalesceAll(pending, primary, es);
            var start := if pending.Some? then pending.value else primary.value;
            (r.Some? <==> pending.Some? || exists i :: 0 <= i < |es| && Schedules(es[i])) &&
            (r.Some? ==> r.value == ResizeOptions(LastFont(es, start.font),
                                                  LastLineSpace(es, start.lineSpace)))
    decreases |es|
  {
    var start := if pending.Some? then pending.value else primary.value;
    if es == [] {
    } else {
      var init, e := es[..|es| - 1], es[|es| - 1];
      assert es == init + [e];
      CoalesceAllKeepsLast(pending, primary, init);
      CoalesceAllSnoc(pending, primary, init, e);
      var mid := CoalesceAll(pending, primary, init);
      if Schedules(e) {
        assert exists i :: 0 <= i < |es| && Schedules(es[i]) by { assert Schedules(es[|es| - 1]); }
      } else {
        assert (exists i :: 0 <= i < |es| && Schedules(es[i]))
           <==> (exists i :: 0 <= i < |init| && Schedules(init[i])) by {
          forall i | 0 <= i < |init| ensures es[i] == init[i] { }
        }
      }
      if mid.Some? {
        assert mid.value == ResizeOptions(LastFont(init, start.font), LastLineSpace(init, start.lineSpace));
      } else {
        assert pending.None?;
        assert LastFont(init, start.font) == start.font by { LastFontNone(init, start.font); }
        assert LastLineSpace(init, start.lineSpace) == start.lineSpace by { LastLineSpaceNone(init, start.lineSpace); }
      }
    }
  }

  /** Without a scheduling event there is no last font. */
  lemma {:induction false} LastFontNone(es: seq<OptionEvent>, fallback: Font)
    requires !exists i :: 0 <= i < |es| && Schedules(es[i])
    ensures LastFont(es, fallback) == fallback
    decreases |es|
  {
    if es != [] {
      assert !Schedules(es[|es| - 1]);
      var init := es[..|es| - 1];
      assert !exists i :: 0 <= i < |init| && Schedules(init[i]) by {
        forall i | 0 <= i < |init| ensures es[i] == init[i] { }
      }
      LastFontNone(init, fallback);
    }
  }

  /** Without a scheduling event there is no last line spacing. */
  lemma {:induction false} LastLineSpaceNone(es: seq<OptionEvent>, fallback: int)
    requires !exists i :: 0 <= i < |es| && Schedules(es[i])
    ensures LastLineSpace(es, fallback) == fallback
    decreases |es|
  {
    if es != [] {
      assert !Schedules(es[|es| - 1]);
      var init := es[..|es| - 1];
      assert !exists i :: 0 <= i < |init| && Schedules(init[i]) by {
        forall i | 0 <= i < |init| ensures es[i] == init[i] { }
      }
      LastLineSpaceNone(init, fallback);
    }
  }
}
