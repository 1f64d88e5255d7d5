/**
 * `plotMarkings`: turns the highlighted selection (a left and a right slot)
 * into the fill regions and boundary lines the chart draws.
 */
module Markings {
  import opened Wrappers

  /** An object of the colour library; only its identity matters here. */
  datatype Color = Color(name: string)

  /**
   * A value placed in a colour field: a CSS string, a colour object, or the
   * result of calling `rgb()` on a colour object.
   */
  datatype Paint = Css(text: string) | Obj(color: Color) | Rgb(of: Color)

  /** One highlighted interval; `from` and `to` are date strings. */
  datatype Marking = Marking(from: string, to: string, color: Color, overlayColor: Option<Paint>)

  /** The `markings` prop: an object whose identity decides when markings are recomputed. */
  class MarkingsProp {
    const left: Option<Marking>
    const right: Option<Marking>

    constructor (left: Option<Marking>, right: Option<Marking>)
      ensures this.left == left && this.right == right
    {
      this.left := left;
      this.right := right;
    }
  }

  /** A marking handed to the chart: `xaxis: {from, to}`, a colour and, on lines, a width. */
  datatype MarkingEntry = MarkingEntry(from: real, to: real, color: Option<Paint>, lineWidth: Option<nat>)

  /** The colour of boundary lines under single selection. */
  const Transparent: string := "transparent"

  /** The colour of the fill under single selection, spelled as the component spells it. */
  const FillTransparent: string := "tranparent"

  /**
   * `constructMarking`: a fill over `[from, to]`, then a one-pixel line at
   * `from` and one at `to`. Under double selection the fill takes the overlay
   * colour and the lines the marking's colour; otherwise all are transparent.
   * `toMs` resolves a date string to epoch milliseconds.
   */
  function ConstructMarking(m: Marking, selectionType: string, toMs: string -> real): (r: seq<MarkingEntry>)
    ensures |r| == 3
    ensures r[0].from == toMs(m.from) && r[0].to == toMs(m.to) && r[0].lineWidth.None?
    ensures r[1].from == toMs(m.from) && r[1].to == toMs(m.from)
    ensures r[2].from == toMs(m.to) && r[2].to == toMs(m.to)
    ensures r[1].lineWidth == Some(1) && r[2].lineWidth == Some(1)
    ensures selectionType == "double" ==>
      r[0].color == m.overlayColor && r[1].color == Some(Rgb(m.color)) && r[2].color == Some(Rgb(m.color))
    ensures selectionType != "double" ==>
      r[0].color == Some(Css(FillTransparent)) && r[1].color == Some(Css(Transparent)) && r[2].color == Some(Css(Transparent))
  {
    var from := toMs(m.from);
    var to := toMs(m.to);
    var boundaryColor := if selectionType == "double" then Some(Rgb(m.color)) else Some(Css(Transparent));
    var fillColor := if selectionType == "double" then m.overlayColor else Some(Css(FillTransparent));
    [ MarkingEntry(from, to, fillColor, None),
      MarkingEntry(from, from, boundaryColor, Some(1)),
      MarkingEntry(to, to, boundaryColor, Some(1)) ]
  }

  /** The entries a possibly absent slot contributes. */
  function SlotEntries(slot: Option<Marking>, selectionType: string, toMs: string -> real): (r: seq<MarkingEntry>)
    ensures |r| == if slot.Some? then 3 else 0
    ensures slot.Some? ==> r == ConstructMarking(slot.value, selectionType, toMs)
    ensures slot.None? ==> r == []
  {
    if slot.Some? then ConstructMarking(slot.value, selectionType, toMs) else []
  }

  /**
   * `plotMarkings`: nothing without a `markings` prop; otherwise the left
   * slot's three entries, if present, before the right slot's.
   */
  function PlotMarkings(markings: MarkingsProp?, selectionType: string, toMs: string -> real): (r: seq<MarkingEntry>)
    ensures markings == null ==> r == []
    ensures markings != null ==>
      |r| == (if markings.left.Some? then 3 else 0) + (if markings.right.Some? then 3 else 0)
    ensures markings != null && markings.left.Some? ==>
      r[..3] == ConstructMarking(markings.left.value, selectionType, toMs)
    ensures markings != null && markings.right.Some? ==>
      r[|r| - 3..] == ConstructMarking(markings.right.value, selectionType, toMs)
  {
    if markings == null then []
    else
      var left := SlotEntries(markings.left, selectionType, toMs);
      var right := SlotEntries(markings.right, selectionType, toMs);
      assert (left + right)[..|left|] == left;
      assert (left + right)[|left + right| - |right|..] == right;
      left + right
  }

  /** The number of entries is always 0, 3 or 6. */
  lemma PlotMarkingsLength(markings: MarkingsProp?, selectionType: string, toMs: string -> real)
    ensures |PlotMarkings(markings, selectionType, toMs)| in {0, 3, 6}
  {
  }

  /**
   * Entries come in triples: a fill (no width) followed by a one-pixel line at
   * the fill's start and a one-pixel line at its end.
   */
  lemma PlotMarkingsTriples(markings: MarkingsProp?, selectionType: string, toMs: string -> real, i: nat)
    requires i < |PlotMarkings(markings, selectionType, toMs)|
    requires i % 3 == 0
    ensures var r := PlotMarkings(markings, selectionType, toMs);
            i + 2 < |r| &&
            r[i].lineWidth.None? && r[i + 1].lineWidth == Some(1) && r[i + 2].lineWidth == Some(1) &&
            r[i + 1].from == r[i + 1].to == r[i].from &&
            r[i + 2].from == r[i + 2].to == r[i].to
  {
  }

  /** Under single selection every entry is transparent, whatever the markings' colours. */
  lemma SingleSelectionIsTransparent(markings: MarkingsProp?, selectionType: string, toMs: string -> real, i: nat)
    requires selectionType != "double"
    requires i < |PlotMarkings(markings, selectionType, toMs)|
    ensures PlotMarkings(markings, selectionType, toMs)[i].color in {Some(Css(FillTransparent)), Some(Css(Transparent))}
  {
  }

  /**
   * Under double selection the boundary lines of the left triple take the left
   * marking's colour and those of the right triple the right marking's.
   */
  lemma DoubleSelectionBoundaryColors(markings: MarkingsProp, toMs: string -> real, i: nat)
    requires i < |PlotMarkings(markings, "double", toMs)|
    requires i % 3 != 0
    ensures var r := PlotMarkings(markings, "double", toMs);
            r[i].color == Some(Rgb(if markings.left.Some? && i < 3 then markings.left.value.color
                                   else markings.right.value.color))
  {
  }
}
