/**
 * The telemetry overlay: one `FlightDataDisplay` per metric, each caching the
 * last value it rendered and its glyph, and the vertical stacking of the
 * glyphs into one panel by `update_hud`.
 */
module Hud {
  import opened Wrappers

  /** A displayed value: Python's `None`, a number, or a label. */
  datatype Value = Null | Num(n: int) | Str(s: string)

  datatype Colour = Colour(red: int, green: int, blue: int)

  const White: Colour := Colour(255, 255, 255)
  const Red: Colour := Colour(255, 0, 0)

  /** The font only matters through the height of the lines it renders. */
  datatype Font = Font(lineHeight: nat)

  /** A rendered surface, kept abstract: what was rendered, in which colour, and how tall it is. */
  datatype Glyph = Glyph(format: string, value: Value, colour: Colour, height: nat)

  /** The telemetry a snapshot carries, as far as the overlay reads it; `text` is its printout `str(data)`. */
  datatype Snapshot = Snapshot(height: int, groundSpeed: int, batteryPercentage: int, wifiStrength: int, text: string)

  datatype Metric = Height | GroundSpeed | BatteryPercentage | WifiStrength

  /** Where an element takes its value: a snapshot attribute, or one of the two derived labels. */
  datatype Source = Field(metric: Metric) | CameraMode | RecordingIndicator

  /** A glyph placed at (x, y) in the panel. */
  datatype Blit = Blit(glyph: Glyph, x: nat, y: nat)

  /** What is drawn on the display: the black fill of `toggle_zoom`, or an overlay panel. */
  datatype Frame = Blank | Overlay(width: nat, height: nat, blits: seq<Blit>)

  /** The width of the panel beside the 4:3 picture, and the padding under the last line. */
  const PanelWidth: nat := 158
  const Padding: nat := 64

  /** `flight_data_mode`: the camera label. */
  function FlightDataMode(zoom: bool): (caption: string)
    ensures caption == "VID" <==> zoom
    ensures caption == "PIC" <==> !zoom
  {
    if zoom then "VID" else "PIC"
  }

  /** `flight_data_recording`: the recording indicator, empty when idle. */
  function FlightDataRecording(recording: bool): (caption: string)
    ensures caption != "" <==> recording
    ensures recording ==> caption == "REC 00:00"
  {
    if recording then "REC 00:00" else ""
  }

  /** The value an element displays for a snapshot, given the zoom flag and whether a recording is open. */
  function Lookup(source: Source, data: Snapshot, zoom: bool, recording: bool): (v: Value)
    ensures v != Null
    ensures source.CameraMode? ==> v == Str(FlightDataMode(zoom))
    ensures source.RecordingIndicator? ==> v == Str(FlightDataRecording(recording))
    ensures source == Field(Height) ==> v == Num(data.height)
    ensures source == Field(GroundSpeed) ==> v == Num(data.groundSpeed)
    ensures source == Field(BatteryPercentage) ==> v == Num(data.batteryPercentage)
    ensures source == Field(WifiStrength) ==> v == Num(data.wifiStrength)
  {
    match source
    case Field(m) => Num(Reading(data, m))
    case CameraMode => Str(FlightDataMode(zoom))
    case RecordingIndicator => Str(FlightDataRecording(recording))
  }

  /** `getattr(data, key)` for the attribute a metric names. */
  function Reading(data: Snapshot, m: Metric): int
  {
    match m
    case Height => data.height
    case GroundSpeed => data.groundSpeed
    case BatteryPercentage => data.batteryPercentage
    case WifiStrength => data.wifiStrength
  }

  /**
   * When two snapshots differ in at most one metric, every other line reads
   * the same value from both, so refreshing it with the second snapshot after
   * the first keeps its cached glyph: only the changed metric's line re-renders.
   */
  lemma OnlyChangedMetricRerenders(m: Metric, d1: Snapshot, d2: Snapshot, zoom: bool, recording: bool,
                                   source: Source, surface: Option<Glyph>, glyph: Glyph)
    requires forall k :: k != m ==> Reading(d1, k) == Reading(d2, k)
    requires source != Field(m)
    ensures var cached := Lookup(source, d1, zoom, recording);
            Refresh(cached, surface, Lookup(source, d2, zoom, recording), glyph) == (cached, surface)
  {
    if source.Field? {
      assert Reading(d1, source.metric) == Reading(d2, source.metric);
    }
  }

  /** `font.render(format % (value,), True, colour)`: one line of text. */
  function Render(format: string, value: Value, colour: Colour, font: Font): Glyph
  {
    Glyph(format, value, colour, font.lineHeight)
  }

  /**
   * The cache step of `FlightDataDisplay.update`: the new value is
   * remembered, and the glyph is regenerated only when the value changed.
   */
  function Refresh(cached: Value, surface: Option<Glyph>, current: Value, glyph: Glyph): (r: (Value, Option<Glyph>))
    ensures r.0 == current
    ensures r.1 == surface || cached != current
    ensures cached != current ==> r.1 == Some(glyph)
    ensures r.1.None? ==> surface.None?
  {
    if cached != current then (current, Some(glyph)) else (cached, surface)
  }

  /** Refreshing twice with the same value renders nothing the second time. */
  lemma RefreshIdempotent(cached: Value, surface: Option<Glyph>, current: Value, glyph: Glyph)
    ensures var r := Refresh(cached, surface, current, glyph);
            Refresh(r.0, r.1, current, glyph) == r
  {
  }

  /** The glyphs that are there, in order (a `None` surface is skipped). */
  function Present(surfaces: seq<Option<Glyph>>): (gs: seq<Glyph>)
    ensures |gs| <= |surfaces|
    ensures (forall i :: 0 <= i < |surfaces| ==> surfaces[i].Some?) ==> |gs| == |surfaces|
    ensures forall g :: g in gs <==> Some(g) in surfaces
  {
    if |surfaces| == 0 then []
    else
      var init := surfaces[..|surfaces| - 1];
      assert forall i :: 0 <= i < |init| ==> init[i] == surfaces[i];
      assert surfaces == init + [surfaces[|surfaces| - 1]];
      Present(init) + (match surfaces[|surfaces| - 1] case Some(g) => [g] case None => [])
  }

  /** The total height of a column of glyphs. */
  function Sum(gs: seq<Glyph>): nat
  {
    if |gs| == 0 then 0 else Sum(gs[..|gs| - 1]) + gs[|gs| - 1].height
  }

  /** The running height `h` of `update_hud` after the given surfaces. */
  function StackHeight(surfaces: seq<Option<Glyph>>): nat
  {
    if |surfaces| == 0 then 0
    else
      StackHeight(surfaces[..|surfaces| - 1])
        + (match surfaces[|surfaces| - 1] case Some(g) => g.height case None => 0)
  }

  /** The `blits` list of `update_hud`: each present glyph at x 0 and the running height. */
  function Layout(surfaces: seq<Option<Glyph>>): (blits: seq<Blit>)
    ensures |blits| == |Present(surfaces)|
  {
    if |surfaces| == 0 then []
    else
      var init := surfaces[..|surfaces| - 1];
      Layout(init)
        + (match surfaces[|surfaces| - 1] case Some(g) => [Blit(g, 0, StackHeight(init))] case None => [])
  }

  /** One more surface puts its glyph, if any, at the running height, which then grows by its height. */
  lemma LayoutSnoc(surfaces: seq<Option<Glyph>>, surface: Option<Glyph>)
    ensures Layout(surfaces + [surface])
            == Layout(surfaces) + (match surface case Some(g) => [Blit(g, 0, StackHeight(surfaces))] case None => [])
    ensures StackHeight(surfaces + [surface])
            == StackHeight(surfaces) + (match surface case Some(g) => g.height case None => 0)
  {
    assert (surfaces + [surface])[..|surfaces|] == surfaces;
  }

  /** Appending a glyph adds its height to the total. */
  lemma SumSnoc(gs: seq<Glyph>, g: Glyph)
    ensures Sum(gs + [g]) == Sum(gs) + g.height
  {
    assert (gs + [g])[..|gs|] == gs;
  }

  /** Blits at the running heights of a column stay so when one more glyph goes under the column. */
  lemma StackedSnoc(gs: seq<Glyph>, blits: seq<Blit>, g: Glyph)
    requires |blits| == |gs|
    requires forall i :: 0 <= i < |blits| ==> blits[i] == Blit(gs[i], 0, Sum(gs[..i]))
    ensures forall i :: 0 <= i < |gs| + 1 ==>
              (blits + [Blit(g, 0, Sum(gs))])[i] == Blit((gs + [g])[i], 0, Sum((gs + [g])[..i]))
  {
    var q := gs + [g];
    forall i | 0 <= i < |q|
      ensures (blits + [Blit(g, 0, Sum(gs))])[i] == Blit(q[i], 0, Sum(q[..i]))
    {
      if i < |gs| {
        assert q[..i] == gs[..i];
      } else {
        assert q[..i] == gs;
      }
    }
  }

  /** Each blit sits at the sum of the heights of the glyphs above it, and the running height is their total. */
  lemma {:induction false} LayoutStacks(surfaces: seq<Option<Glyph>>)
    ensures StackHeight(surfaces) == Sum(Present(surfaces))
    ensures forall i :: 0 <= i < |Layout(surfaces)| ==>
              Layout(surfaces)[i] == Blit(Present(surfaces)[i], 0, Sum(Present(surfaces)[..i]))
  {
    if |surfaces| > 0 {
      var init := surfaces[..|surfaces| - 1];
      LayoutStacks(init);
      match surfaces[|surfaces| - 1]
      case None =>
        assert Present(surfaces) == Present(init);
        assert Layout(surfaces) == Layout(init);
      case Some(g) =>
        assert Present(surfaces) == Present(init) + [g];
        assert Layout(surfaces) == Layout(init) + [Blit(g, 0, StackHeight(init))];
        SumSnoc(Present(init), g);
        StackedSnoc(Present(init), Layout(init), g);
    }
  }

  /** The overlay `update_hud` composes from the elements' surfaces. */
  function Compose(surfaces: seq<Option<Glyph>>): Frame
  {
    Overlay(PanelWidth, StackHeight(surfaces) + Padding, Layout(surfaces))
  }

  /**
   * The composed overlay is 158 wide, holds the present glyphs stacked from
   * the top with no gaps, and is tall enough for all of them plus 64 of padding.
   */
  lemma ComposeStacks(surfaces: seq<Option<Glyph>>)
    ensures var f := Compose(surfaces);
            && f.Overlay? && f.width == PanelWidth
            && f.height == Sum(Present(surfaces)) + Padding
            && |f.blits| == |Present(surfaces)|
            && forall i :: 0 <= i < |f.blits| ==>
                 f.blits[i] == Blit(Present(surfaces)[i], 0, Sum(Present(surfaces)[..i]))
  {
    LayoutStacks(surfaces);
  }

  /** The six lines of the module-level `hud` list, top to bottom: value source, format and colour. */
  const Lines: seq<(Source, string, Colour)> := [
    (Field(Height), "ALT %3d", White),
    (Field(GroundSpeed), "SPD %3d", White),
    (Field(BatteryPercentage), "BAT %3d%%", White),
    (Field(WifiStrength), "NET %3d%%", White),
    (CameraMode, "CAM %s", White),
    (RecordingIndicator, "%s", Red)]

  /** `FlightDataDisplay`: one line of the overlay, with its render cache. */
  class FlightDataDisplay {
    const source: Source
    const format: string
    const colour: Colour
    var value: Value
    var surface: Option<Glyph>

    constructor (source: Source, format: string, colour: Colour)
      ensures this.source == source && this.format == format && this.colour == colour
      ensures value == Null && surface == None
    {
      this.source := source;
      this.format := format;
      this.colour := colour;
      value := Null;
      surface := None;
    }

    /** `update(drone, data)`: re-render only when the displayed value changed; return the surface. */
    method Update(data: Snapshot, zoom: bool, recording: bool, font: Font) returns (r: Option<Glyph>)
      modifies this
      ensures var current := Lookup(source, data, zoom, recording);
              (value, surface) == Refresh(old(value), old(surface), current, Render(format, current, colour, font))
      ensures r == surface
    {
      var newValue := Lookup(source, data, zoom, recording);
      if value != newValue {
        value := newValue;
        surface := Some(Render(format, newValue, colour, font));
      }
      r := surface;
    }
  }

  /** `e` holds what `update` leaves for this snapshot, relative to its state before. */
  twostate predicate Refreshed(e: FlightDataDisplay, data: Snapshot, zoom: bool, recording: bool, font: Font)
    reads e
  {
    var current := Lookup(e.source, data, zoom, recording);
    (e.value, e.surface) == Refresh(old(e.value), old(e.surface), current, Render(e.format, current, e.colour, font))
  }
}
