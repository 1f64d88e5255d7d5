/**
 * The chart wrapper component: the options it builds at construction, the
 * marking refresh after a prop change, and the options and series it hands to
 * the chart on every render.
 */
module ChartWrapper {
  import opened Wrappers
  import opened Timelines
  import opened Skew
  import opened Markings

  /** The component's props, reduced to those that shape the plot; `format` may be omitted. */
  datatype Props = Props(
    format: Option<string>,
    timelineA: TimelineData,
    timelineB: Option<TimelineData>,
    markings: MarkingsProp?,
    timezone: Option<string>,
    selectionType: string)

  /** The `selection` options. */
  datatype Selection = Selection(selectionType: string, overlayColor: Option<Paint>, boundaryColor: Option<Paint>)

  /**
   * The options this component computes: `lines.show`, `bars.show`,
   * `xaxis.timezone`, `xaxis.autoscaleMargin` (None when unset or `null`) and
   * `grid.markings`.
   */
  datatype FlotOptions = FlotOptions(
    selection: Selection,
    lines: bool,
    bars: bool,
    timezone: string,
    autoscaleMargin: Option<real>,
    markings: seq<MarkingEntry>)

  /** A series handed to the chart: the caller's colour and the centred points. */
  datatype Series = Series(color: Option<string>, points: seq<Point>)

  /** What one render hands to the chart. */
  datatype Rendered = Rendered(options: FlotOptions, data: seq<Series>)

  /** JavaScript truthiness of a colour field: absent and the empty string are false. */
  predicate Truthy(p: Option<Paint>)
  {
    p.Some? && p.value != Css("")
  }

  /** JavaScript `a || b` on colour fields. */
  function Or(a: Option<Paint>, b: Option<Paint>): Option<Paint>
  {
    if Truthy(a) then a else b
  }

  /** `markings?.[slot]?.overlayColor`. */
  function OverlayOf(markings: MarkingsProp?, right: bool): Option<Paint>
  {
    if markings == null then None
    else
      var slot := if right then markings.right else markings.left;
      if slot.Some? then slot.value.overlayColor else None
  }

  /** `markings?.[slot]?.color`. */
  function ColorOf(markings: MarkingsProp?, right: bool): Option<Paint>
  {
    if markings == null then None
    else
      var slot := if right then markings.right else markings.left;
      if slot.Some? then Some(Obj(slot.value.color)) else None
  }

  /**
   * The `selection` options: under double selection the chart's own selection
   * colours stay unset; otherwise they come from the right marking, falling
   * back to the left one.
   */
  function SelectionOptions(props: Props): (s: Selection)
    ensures s.selectionType == props.selectionType
    ensures props.selectionType == "double" ==> s.overlayColor.None? && s.boundaryColor.None?
    ensures props.selectionType != "double" ==>
      var m := props.markings;
      s.boundaryColor ==
        (if m != null && m.right.Some? then Some(Obj(m.right.value.color))
         else if m != null && m.left.Some? then Some(Obj(m.left.value.color))
         else None)
    ensures props.selectionType != "double" ==>
      var m := props.markings;
      if m != null && m.right.Some? && Truthy(m.right.value.overlayColor) then s.overlayColor == m.right.value.overlayColor
      else if m != null && m.left.Some? then s.overlayColor == m.left.value.overlayColor
      else s.overlayColor.None?
  {
    var double := props.selectionType == "double";
    Selection(
      props.selectionType,
      if double then None else Or(OverlayOf(props.markings, true), OverlayOf(props.markings, false)),
      if double then None else Or(ColorOf(props.markings, true), ColorOf(props.markings, false)))
  }

  /** The options built before the format is applied: bars shown, lines hidden, browser time. */
  function BaseOptions(props: Props): FlotOptions
  {
    FlotOptions(SelectionOptions(props), false, true, "browser", None, [])
  }

  /** The format in effect: `defaultProps` supplies `bars` when the prop is omitted. */
  function FormatOf(props: Props): (f: string)
    ensures props.format.None? ==> f == "bars"
    ensures props.format.Some? ==> f == props.format.value
  {
    match props.format
    case None => "bars"
    case Some(f) => f
  }

  /** The message thrown for an unknown format. */
  function InvalidFormat(format: string): string
  {
    "Invalid format: '" + format + "'"
  }

  /**
   * The format switch: `lines` shows lines and hides bars, `bars` the
   * reverse, and anything else throws.
   */
  function ApplyFormat(base: FlotOptions, format: string): (r: Result<FlotOptions, string>)
    ensures r.Ok? <==> format == "lines" || format == "bars"
    ensures r.Err? ==> r.error == InvalidFormat(format)
    ensures r.Ok? ==> r.value.lines == (format == "lines") && r.value.bars == (format == "bars")
    ensures r.Ok? ==> r.value.(lines := base.lines, bars := base.bars) == base
  {
    match format
    case "lines" => Ok(base.(lines := true, bars := false))
    case "bars" => Ok(base.(bars := true, lines := false))
    case _ => Err(InvalidFormat(format))
  }

  /** The options the constructor leaves in the component state, or the error it throws. */
  function InitialOptions(props: Props, toMs: string -> real): (r: Result<FlotOptions, string>)
    ensures r.Ok? <==> FormatOf(props) == "lines" || FormatOf(props) == "bars"
    ensures r.Err? ==> r.error == InvalidFormat(FormatOf(props))
    ensures r.Ok? ==>
      && r.value.lines == (FormatOf(props) == "lines")
      && r.value.bars == (FormatOf(props) == "bars")
      && r.value.selection == SelectionOptions(props)
      && r.value.timezone == "browser"
      && r.value.autoscaleMargin.None?
      && r.value.markings == PlotMarkings(props.markings, props.selectionType, toMs)
  {
    match ApplyFormat(BaseOptions(props), FormatOf(props))
    case Err(e) => Err(e)
    case Ok(options) => Ok(options.(markings := PlotMarkings(props.markings, props.selectionType, toMs)))
  }

  /** An omitted format never throws: the component starts with bars shown and lines hidden. */
  lemma OmittedFormatIsBars(props: Props, toMs: string -> real)
    requires props.format.None?
    ensures InitialOptions(props, toMs).Ok?
    ensures InitialOptions(props, toMs).value.bars && !InitialOptions(props, toMs).value.lines
  {
  }

  /** Timeline B after the "same series" skew, when A and B look alike. */
  function SkewedB(props: Props): Option<TimelineData>
  {
    if AreTimelinesTheSame(props.timelineA, props.timelineB) then Skewed(props.timelineB, 4.0)
    else props.timelineB
  }

  /**
   * The test `render` makes before forcing bars on and nudging B: the
   * single-datapoint test followed by the check on B, applied to B after the
   * skew step. `BothSingle` is the same condition read off the props, which
   * `Assemble` and `RenderedB` use in their contracts.
   */
  predicate ForcesBars(timelineA: TimelineData, timelineB: Option<TimelineData>)
  {
    IsSingleDatapoint(timelineA, timelineB) &&
    timelineB.Some? && timelineB.value.data.Some? && |timelineB.value.data.value.samples| <= 1
  }

  /** The same condition, read off the props: A and B each hold data with at most one sample. */
  predicate BothSingle(props: Props)
  {
    props.timelineA.data.Some? && |props.timelineA.data.value.samples| <= 1 &&
    props.timelineB.Some? && props.timelineB.value.data.Some? &&
    |props.timelineB.value.data.value.samples| <= 1
  }

  /**
   * Timeline B as rendered: skewed when it looks like A, then moved 0.01 s
   * later when both are single datapoints.
   */
  function RenderedB(props: Props): (b: Option<TimelineData>)
    ensures b.Some? <==> props.timelineB.Some?
    ensures props.timelineB.Some? ==>
      b.value.color == props.timelineB.value.color &&
      (b.value.data.Some? <==> props.timelineB.value.data.Some?)
    ensures props.timelineB.Some? && props.timelineB.value.data.Some? ==>
      var t := props.timelineB.value.data.value;
      var u := b.value.data.value;
      && u.durationDelta == t.durationDelta
      && u.startTime == t.startTime + (if BothSingle(props) then 0.01 else 0.0)
      && u.samples == (if AreTimelinesTheSame(props.timelineA, props.timelineB)
                       then SkewSamples(t.samples, SkewShift(t.samples, 4.0)) else t.samples)
  {
    var b := SkewedB(props);
    if ForcesBars(props.timelineA, b) then
      Some(b.value.(data := Some(b.value.data.value.(startTime := b.value.data.value.startTime + 0.01))))
    else b
  }

  /** The series handed to the chart: A's, then B's, each only when it has data. */
  function SeriesOf(timelineA: TimelineData, timelineB: Option<TimelineData>): seq<Series>
  {
    (if timelineA.data.Some? then [Series(timelineA.color, CenterTimelineData(timelineA).points)] else []) +
    (if timelineB.Some? && timelineB.value.data.Some?
     then [Series(timelineB.value.color, CenterTimelineData(timelineB.value).points)] else [])
  }

  /**
   * What `render` hands to the chart, given the options in the component state.
   * The margin is dropped only for an A with more than three samples, the
   * timezone defaults to `browser`, and bars are shown for a lone series or
   * for two single datapoints.
   */
  function Assemble(state: FlotOptions, props: Props): (r: Rendered)
    ensures r.options.selection == state.selection && r.options.lines == state.lines
    ensures r.options.markings == state.markings
    ensures r.options.autoscaleMargin.None? <==>
      props.timelineA.data.Some? && |props.timelineA.data.value.samples| > 3
    ensures r.options.autoscaleMargin.Some? ==> r.options.autoscaleMargin.value == 0.005
    ensures r.options.timezone ==
      if props.timezone.Some? && props.timezone.value != "" then props.timezone.value else "browser"
    ensures r.options.bars <==> props.timelineB.None? || BothSingle(props)
    ensures |r.data| ==
      (if props.timelineA.data.Some? then 1 else 0) +
      (if props.timelineB.Some? && props.timelineB.value.data.Some? then 1 else 0)
    ensures props.timelineA.data.Some? ==>
      r.data[0] == Series(props.timelineA.color, CenterTimelineData(props.timelineA).points)
    ensures props.timelineB.Some? && props.timelineB.value.data.Some? ==>
      r.data[|r.data| - 1] == Series(props.timelineB.value.color, CenterTimelineData(RenderedB(props).value).points)
  {
    var a := props.timelineA;
    var margin := if a.data.Some? && |a.data.value.samples| > 3 then None else Some(0.005);
    var timezone := if props.timezone.Some? && props.timezone.value != "" then props.timezone.value else "browser";
    var b := SkewedB(props);
    var bars := if ForcesBars(a, b) then true else props.timelineB.None?;
    assert ForcesBars(a, b) <==> BothSingle(props);
    Rendered(
      state.(timezone := timezone, autoscaleMargin := margin, bars := bars),
      SeriesOf(a, RenderedB(props)))
  }

  /**
   * The state write `render` makes through the shared `bars` object does not
   * change what the next render produces.
   */
  lemma AssembleIgnoresBarsInState(state: FlotOptions, props: Props)
    ensures Assemble(state.(bars := Assemble(state, props).options.bars), props) == Assemble(state, props)
  {
  }

  /**
   * With one sample in each series, B's point is drawn exactly 10 ms after
   * where it would have been.
   */
  lemma SingleDatapointNudge(state: FlotOptions, props: Props)
    requires props.timelineA.data.Some? && |props.timelineA.data.value.samples| <= 1
    requires props.timelineB.Some? && props.timelineB.value.data.Some?
    requires |props.timelineB.value.data.value.samples| == 1
    ensures var r := Assemble(state, props);
            var t := props.timelineB.value.data.value;
            r.options.bars &&
            |r.data[|r.data| - 1].points| == 1 &&
            r.data[|r.data| - 1].points[0].ms == (t.startTime * 1000.0 + 5000.0) + 10.0
  {
  }

  /** Two look-alike series: B is drawn with its positive samples lifted, A untouched. */
  lemma IdenticalSeriesAreSeparated(state: FlotOptions, props: Props, k: nat)
    requires props.timelineA.data.Some? && props.timelineB.Some?
    requires props.timelineB.value.data == props.timelineA.data
    requires k < |props.timelineA.data.value.samples|
    ensures var r := Assemble(state, props);
            var s := props.timelineA.data.value.samples;
            r.data[0].points[k].value == (if s[k] == 0.0 then 0.0 else s[k] - 1.0) &&
            (s[k] > 0.0 ==> r.data[1].points[k].value == s[k] + SkewShift(s, 4.0) - 1.0)
  {
  }

  /** The component: its props, the options kept in its state, and the date resolver it uses. */
  class TimelineChartWrapper {
    var props: Props
    var flotOptions: FlotOptions
    /** Resolves a marking's date string to epoch milliseconds. */
    const toMs: string -> real

    /** The constructor for a valid format; `Mount` covers the one that throws. */
    constructor (props: Props, toMs: string -> real)
      requires FormatOf(props) == "lines" || FormatOf(props) == "bars"
      ensures this.props == props && this.toMs == toMs
      ensures flotOptions == InitialOptions(props, toMs).value
    {
      var options := ApplyFormat(BaseOptions(props), FormatOf(props));
      this.props := props;
      this.toMs := toMs;
      flotOptions := options.value.(markings := PlotMarkings(props.markings, props.selectionType, toMs));
    }

    /** Creating the component: fails with `Invalid format` and yields no object for an unknown format. */
    static method Mount(props: Props, toMs: string -> real) returns (r: Result<TimelineChartWrapper, string>)
      ensures r.Err? <==> !(FormatOf(props) == "lines" || FormatOf(props) == "bars")
      ensures r.Err? ==> r.error == InvalidFormat(FormatOf(props))
      ensures r.Ok? ==> fresh(r.value) && r.value.props == props && r.value.toMs == toMs &&
                        r.value.flotOptions == InitialOptions(props, toMs).value
    {
      var format := FormatOf(props);
      if format == "lines" || format == "bars" {
        var w := new TimelineChartWrapper(props, toMs);
        r := Ok(w);
      } else {
        r := Err(InvalidFormat(format));
      }
    }

    /** `componentDidUpdate`: markings are rebuilt only when the `markings` object changed. */
    method ComponentDidUpdate(prevProps: Props)
      modifies this`flotOptions
      ensures prevProps.markings != props.markings ==>
        flotOptions == old(flotOptions).(markings := PlotMarkings(props.markings, props.selectionType, toMs))
      ensures prevProps.markings == props.markings ==> flotOptions == old(flotOptions)
    {
      if prevProps.markings != props.markings {
        flotOptions := flotOptions.(markings := PlotMarkings(props.markings, props.selectionType, toMs));
      }
    }

    /** New props arrive and `componentDidUpdate` runs with the previous ones. */
    method Update(newProps: Props)
      modifies this`props, this`flotOptions
      ensures props == newProps
      ensures old(props).markings != newProps.markings ==>
        flotOptions == old(flotOptions).(markings := PlotMarkings(newProps.markings, newProps.selectionType, toMs))
      ensures old(props).markings == newProps.markings ==> flotOptions == old(flotOptions)
    {
      var prevProps := props;
      props := newProps;
      ComponentDidUpdate(prevProps);
    }

    /**
     * `render`: builds the options and series for the chart. The writes to
     * `bars.show` also land in the state, whose `bars` object is shared.
     */
    method Render() returns (out: Rendered)
      modifies this`flotOptions
      ensures out == Assemble(old(flotOptions), props)
      ensures flotOptions == old(flotOptions).(bars := out.options.bars)
    {
      var timelineA := props.timelineA;
      var timelineB := props.timelineB;
      var margin := if timelineA.data.Some? && |timelineA.data.value.samples| > 3 then None else Some(0.005);
      var timezone := if props.timezone.Some? && props.timezone.value != "" then props.timezone.value else "browser";
      var custom := flotOptions.(timezone := timezone, autoscaleMargin := margin);

      if timelineB.Some? {
        custom := custom.(bars := false);
        flotOptions := flotOptions.(bars := false);
      } else {
        custom := custom.(bars := true);
        flotOptions := flotOptions.(bars := true);
      }

      if AreTimelinesTheSame(timelineA, timelineB) {
        timelineB := SkewTimeline(timelineB, 4.0);
      }

      if IsSingleDatapoint(timelineA, timelineB) {
        if timelineB.Some? && timelineB.value.data.Some? && |timelineB.value.data.value.samples| <= 1 {
          custom := custom.(bars := true);
          flotOptions := flotOptions.(bars := true);
          var t := timelineB.value.data.value;
          timelineB := Some(timelineB.value.(data := Some(t.(startTime := t.startTime + 0.01))));
        }
      }

      out := Rendered(custom, SeriesOf(timelineA, timelineB));
    }
  }
}
