# Timeline chart data preparation, modelled in Dafny

This project models the data-preparation core of pyroscope's timeline chart
wrapper (`webapp/javascript/components/TimelineChartWrapper.tsx`). The wrapper
receives one or two compact timelines (start time, fixed interval, sample
array), a plot format, a selection style and up to two highlighted markings.
From them it builds the point series and the option object that the Flot chart
draws. The model covers:

- **Decoding** (`Timelines.DecodeTimelineData`): `[ms, value]` points, with the
  time carried forward in an accumulator as `decodeTimelineData` does.
  `Timelines.DecodeFrom` is the recursive definition it is proved against. The
  lemmas show that, in exact arithmetic, the accumulator never drifts from
  `(startTime + i * durationDelta) * 1000`.
- **Centering** (`Timelines.CenterTimelineData`): +5000 ms on every timestamp,
  and every value except the placeholder `0` lowered by one.
- **Similarity test** (`Timelines.AreTimelinesTheSame`): the value-set subset
  heuristic, including the equal-length quirk. When both arrays have the same
  length, "biggest" and "smallest" are both B, so the answer is always true.
- **Skew** (`Skew.SkewTimeline`, with the min/max scan `Skew.ScanMinMax`): on a
  copy of the timeline, samples ≤ 0 become 0 and positive samples are raised by
  `(max - min) / 100 * factor`.
- **Single-datapoint test** (`Timelines.IsSingleDatapoint`).
- **Marking geometry** (`Markings.PlotMarkings`): a fill and two one-pixel lines
  per present slot, left before right. Colours depend on the selection type,
  including the fill's literal colour string `'tranparent'`.
- **Options**: the format switch with its `Invalid format` error, the selection
  colours, and the marking refresh on a new `markings` object. Each render
  assembles the margin, the timezone default, the bars flag, the 0.01 s nudge
  of B and the series list (`ChartWrapper.Assemble`). The component itself is the
  class `ChartWrapper.TimelineChartWrapper`. Its `Render` also writes `bars.show`
  into the state, because `render`'s shallow spread shares that object.

Modelling choices:

- Numbers are exact `real`s.
- A date string is turned into milliseconds by a function `toMs` that the
  component receives. It stands for `new Date(formatAsOBject(s)).getTime()`.
- A colour-library object is an opaque `Color`. `m.color.rgb()` is the symbolic
  value `Rgb(m.color)`.
- The `markings` prop is an object (`MarkingsProp`), so the `!==` test in
  `componentDidUpdate` is reference inequality.
- JavaScript `||` on colour fields follows truthiness: the empty string and an
  absent value are false.
- The timezone prop is optional: absent or empty gives `browser`.
- The format prop is optional: `defaultProps` fills an omitted format with
  `bars` (`ChartWrapper.FormatOf`), so only a format that is given and is
  neither `lines` nor `bars` throws.

Behaviour of the component that is easy to miss, and that the model follows:

- decoding does not round to whole milliseconds;
- a marking without `from`/`to` is not skipped;
- the margin is also 0.005 when A has no data;
- bars are forced on only when B is present with data (when B is absent they
  are already on).

## Model

| member | source | states |
|---|---|---|
| `Timelines.DecodeFrom` | webapp/javascript/components/TimelineChartWrapper.tsx:374-378 | the accumulator-driven map yields one point per sample, carrying each sample's value unchanged |
| `Timelines.DecodeFromAt` | webapp/javascript/components/TimelineChartWrapper.tsx:374-378 | point k of the running-clock decoding is exactly `((time + k*delta)*1000, samples[k])` (no drift, in exact arithmetic) |
| `Timelines.DecodedAt` | webapp/javascript/components/TimelineChartWrapper.tsx:370-380 | a decoded timeline has one point per sample and point k is `((startTime + k*durationDelta)*1000, samples[k])` |
| `Timelines.DecodedIncreasing` | webapp/javascript/components/TimelineChartWrapper.tsx:374-378 | with a positive interval the decoded timestamps are strictly increasing in sample order |
| `Timelines.DecodeTimelineData` | webapp/javascript/components/TimelineChartWrapper.tsx:370-380 | absent timeline gives `[]`; otherwise the accumulator loop yields `|samples|` points in sample order, point k at `(startTime + k*durationDelta)*1000` with value `samples[k]` |
| `Timelines.CenterTimelineData` | webapp/javascript/components/TimelineChartWrapper.tsx:358-368 | absent data gives the `[[]]` placeholder; otherwise as many points as samples, each timestamp the decoded one plus 5000 ms, value 0 kept as 0 and any other value v mapped to v-1 |
| `Timelines.AreTimelinesTheSame` | webapp/javascript/components/TimelineChartWrapper.tsx:333-356 | false when B or either data is absent; true whenever the sample counts are equal; otherwise true iff every sample of the strictly shorter series is a value of the longer one |
| `Timelines.AreTimelinesTheSameSymmetric` | webapp/javascript/components/TimelineChartWrapper.tsx:349-355 | with both data present, swapping A and B does not change the answer |
| `Timelines.AreTimelinesTheSameReflexive` | webapp/javascript/components/TimelineChartWrapper.tsx:349-355 | a series with data is the same as itself |
| `Timelines.EqualLengthAlwaysSame` | webapp/javascript/components/TimelineChartWrapper.tsx:350-351 | `[1,2]` and `[5,6]` count as the same because equal lengths make both "biggest" and "smallest" B |
| `Timelines.SubsetExamples` | webapp/javascript/components/TimelineChartWrapper.tsx:353-355 | `[2,1]` is the same as `[1,2,3]`; `[5,6]` is not |
| `Timelines.IsSingleDatapoint` | webapp/javascript/components/TimelineChartWrapper.tsx:275-286 | true iff A has data with at most one sample and B is absent, has no data, or has at most one sample |
| `Timelines.SingleDatapointCentersToAtMostOnePoint` | webapp/javascript/components/TimelineChartWrapper.tsx:275-286 | when the test holds, A centres to real points, at most one of them |
| `Skew.SeqMin` | webapp/javascript/components/TimelineChartWrapper.tsx:300-312 | the left-to-right scan keeping strict improvements yields a sample that is ≤ every sample |
| `Skew.SeqMax` | webapp/javascript/components/TimelineChartWrapper.tsx:300-312 | the same scan for `>` yields a sample that is ≥ every sample |
| `Skew.Spread` | webapp/javascript/components/TimelineChartWrapper.tsx:314-315 | the skew is non-negative, and 100 times it is `max - min` for a non-empty array |
| `Skew.SkewShift` | webapp/javascript/components/TimelineChartWrapper.tsx:314-326 | `skew * factor` is non-negative for a non-negative factor, and positive iff the factor is positive and the samples are not all equal |
| `Skew.SkewSamples` | webapp/javascript/components/TimelineChartWrapper.tsx:318-326 | the map keeps the count, sends samples ≤ 0 to 0 and adds the shift to the others |
| `Skew.Skewed` | webapp/javascript/components/TimelineChartWrapper.tsx:288-331 | absent in gives absent out; colour, data presence, start time, interval and sample count are kept; samples ≤ 0 become 0 and positive a becomes `a + skew*factor` |
| `Skew.ScanMinMax` | webapp/javascript/components/TimelineChartWrapper.tsx:300-312 | for non-empty samples the loop ends with the least and the greatest sample |
| `Skew.SkewTimeline` | webapp/javascript/components/TimelineChartWrapper.tsx:288-331 | the copy-scan-map procedure returns exactly `Skewed(timeline, factor)`; the caller's value is untouched |
| `Skew.SkewKeepsAbsentAtZero` | webapp/javascript/components/TimelineChartWrapper.tsx:319-322 | a sample ≤ 0 comes out as 0, never positive |
| `Skew.SkewNeverLowers` | webapp/javascript/components/TimelineChartWrapper.tsx:318-326 | with factor ≥ 0 every result sample is ≥ 0 and no positive sample decreases |
| `Skew.SkewStrictlyRaises` | webapp/javascript/components/TimelineChartWrapper.tsx:314-326 | with factor ≥ 0 a positive sample strictly rises iff factor > 0 and max > min |
| `Skew.SkewEmpty` | webapp/javascript/components/TimelineChartWrapper.tsx:299-330 | empty samples stay empty |
| `Markings.ConstructMarking` | webapp/javascript/components/TimelineChartWrapper.tsx:160-184 | three entries: fill over `[from,to]` without width, lines of width 1 at `[from,from]` and `[to,to]`; under `double` fill = overlayColor and lines = `color.rgb()`, otherwise `'tranparent'` and `'transparent'` |
| `Markings.SlotEntries` | webapp/javascript/components/TimelineChartWrapper.tsx:190-191 | a present slot contributes exactly `constructMarking` of its marking (three entries), an absent one nothing |
| `Markings.PlotMarkings` | webapp/javascript/components/TimelineChartWrapper.tsx:159-198 | no markings gives `[]`; otherwise three entries per present slot, left's triple first and right's last |
| `Markings.PlotMarkingsLength` | webapp/javascript/components/TimelineChartWrapper.tsx:188-197 | the result always has 0, 3 or 6 entries |
| `Markings.PlotMarkingsTriples` | webapp/javascript/components/TimelineChartWrapper.tsx:173-183 | every triple is a widthless fill followed by width-1 lines at the fill's start and end |
| `Markings.SingleSelectionIsTransparent` | webapp/javascript/components/TimelineChartWrapper.tsx:167-180 | outside `double` every entry's colour is one of the two transparent strings |
| `Markings.DoubleSelectionBoundaryColors` | webapp/javascript/components/TimelineChartWrapper.tsx:167-171 | under `double` each boundary line carries `rgb()` of its own slot's colour |
| `ChartWrapper.SelectionOptions` | webapp/javascript/components/TimelineChartWrapper.tsx:70-86 | under `double` both selection colours are unset; otherwise the boundary colour is the right marking's, else the left's, and the overlay is a truthy right overlay, else the left one |
| `ChartWrapper.FormatOf` | webapp/javascript/components/TimelineChartWrapper.tsx:56-58 | an omitted format is `bars`; a given one is used as it is |
| `ChartWrapper.OmittedFormatIsBars` | webapp/javascript/components/TimelineChartWrapper.tsx:56-58 | with no format prop the component does not throw and starts with bars shown and lines hidden |
| `ChartWrapper.ApplyFormat` | webapp/javascript/components/TimelineChartWrapper.tsx:116-145 | applied to the format in effect, succeeds iff it is `lines` or `bars`, setting lines/bars shown accordingly and nothing else; any other format is the `Invalid format: '<f>'` error |
| `ChartWrapper.InitialOptions` | webapp/javascript/components/TimelineChartWrapper.tsx:60-149 | the constructor's options: error when the format in effect (omitted means `bars`) is invalid; otherwise the format's flags, the selection colours, browser timezone, no margin, and the plotted markings |
| `ChartWrapper.RenderedB` | webapp/javascript/components/TimelineChartWrapper.tsx:227-243 | B keeps presence, colour, interval and count; its samples are skewed with factor 4 iff it looks like A; its start time grows by exactly 0.01 iff A and B each have data with at most one sample |
| `ChartWrapper.Assemble` | webapp/javascript/components/TimelineChartWrapper.tsx:200-253 | margin is null iff A has data with more than 3 samples, else 0.005; timezone defaults to `browser`; bars shown iff B is absent or both are single datapoints; selection, lines and markings kept; series without data dropped, A before B, each centred |
| `ChartWrapper.AssembleIgnoresBarsInState` | webapp/javascript/components/TimelineChartWrapper.tsx:220-225 | the `bars.show` write that reaches the state does not change the next render's output |
| `ChartWrapper.SingleDatapointNudge` | webapp/javascript/components/TimelineChartWrapper.tsx:233-243 | with one sample in B and at most one in A, bars are on and B's point lands exactly 10 ms later than it would otherwise |
| `ChartWrapper.IdenticalSeriesAreSeparated` | webapp/javascript/components/TimelineChartWrapper.tsx:227-231 | when B's data equals A's, A is drawn as centred and each positive sample of B is drawn `skew*4` higher |
| `ChartWrapper.TimelineChartWrapper.constructor` | webapp/javascript/components/TimelineChartWrapper.tsx:60-149 | for a valid format the state holds `InitialOptions(props)` |
| `ChartWrapper.TimelineChartWrapper.Mount` | webapp/javascript/components/TimelineChartWrapper.tsx:141-143 | creation fails with `Invalid format` and yields no component iff the format in effect (omitted means `bars`) is neither `lines` nor `bars`; otherwise a fresh component holding the given props, the given date resolver and the initial options |
| `ChartWrapper.TimelineChartWrapper.ComponentDidUpdate` | webapp/javascript/components/TimelineChartWrapper.tsx:151-157 | markings are recomputed from the current props iff the `markings` object differs from the previous one; nothing else changes |
| `ChartWrapper.TimelineChartWrapper.Update` | webapp/javascript/components/TimelineChartWrapper.tsx:151-157 | new props are installed and the markings refresh rule is applied against the old props |
| `ChartWrapper.TimelineChartWrapper.Render` | webapp/javascript/components/TimelineChartWrapper.tsx:200-253 | returns `Assemble(state, props)` and leaves the state changed only in `bars.show`, set to the rendered value |

## Left out

- JSX output, the `TimelineChart`/Flot widget and the CSS module (lines 255-270): these are rendering plumbing.
- Date parsing (`formatAsOBject`, `new Date(...).getTime()`, lines 161-162): it is a parameter `toMs`. Invalid dates (`NaN`) are not modelled.
- The colour library: `Color` is opaque and `rgb()` is the symbolic `Rgb(color)`.
- IEEE floating point: `/100`, `*1000`, `+= 0.01` and the running `time +=` are exact real arithmetic. No bit-exact JavaScript result is claimed.
- The JSON deep copies (lines 205, 297): Dafny values are never shared, so the caller's timeline is untouched by construction. JSON's mapping of `NaN` to `null` is not modelled.
- `Skew.SkewTimeline`: for an empty sample array `skewTimeline`'s `min`/`max` start as `undefined` and the skew is `NaN`. The model uses 0, which no sample can observe.
- `onSelect`, `id`, `height`, `title`, `data-testid`, and the constant margin, crosshair, grid, yaxis, points and xaxis mode/reserveSpace options: these are pass-through with no behaviour.
- React lifecycle beyond the marking refresh: `setState` scheduling and re-rendering are not modelled.
- `Timelines.AreTimelinesTheSame`: the `!timelineA` guard is not modelled, since the props type makes `timelineA` required. `IsSingleDatapoint` and `render` use it unguarded.
- `ChartWrapper.TimelineChartWrapper.constructor`: it requires a valid format, because a constructor that throws yields no object. `ChartWrapper.TimelineChartWrapper.Mount` and `ChartWrapper.InitialOptions` model the throw.
