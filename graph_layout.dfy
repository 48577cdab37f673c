/** The value-level half of `graph.ts`: resolving series and swimlane ids
    to axis columns, building the series circles, the connecting lines, the
    swimlanes and the axis from the layout, the repaint rule of every
    animation tick, and the order of the painted layers. The `Graph` object
    that holds this state is in module `Graphs`. */
module GraphLayout {
  import opened Canvas
  import opened XCalcs
  import opened Layout
  import Circles
  import Swimlanes
  import Axis

  /** `LineData`: a series segment between two circle centres. */
  datatype Line = Line(x1: real, y1: real, x2: real, y2: real)

  /** The options used when the caller passes none: margins 20/10/20/10,
      a 30-pixel gap above 20-pixel swimlane rows, labels unformatted. */
  function DefaultOptions(): GraphOptions
  {
    GraphOptions(20.0, 10.0, 20.0, 10.0, 30.0, 20.0, s => s, 16.0, 12.0)
  }

  /** `options ?? { ...defaults }`. */
  function ResolveOptions(options: Option<GraphOptions>): (opts: GraphOptions)
    ensures options.Some? ==> opts == options.value
    ensures options.None? ==> opts.marginTop == 20.0 && opts.marginBottom == 20.0
                              && opts.marginLeft == 10.0 && opts.marginRight == 10.0
                              && opts.spaceGraphSwimlanes == 30.0 && opts.swimlaneHeight == 20.0
                              && forall s :: opts.xAxisFormatter(s) == s
  {
    match options
    case Some(o) => o
    case None => DefaultOptions()
  }

  /** The list the constructor builds from the series ids when the axis is
      missing. */
  function AxisFallback(data: seq<GraphData>): seq<XAxisData>
  {
    seq(|data|, i requires 0 <= i < |data| => XAxisData(data[i].id, data[i].id))
  }

  /** The axis the constructor ends up with. The fallback is built but never
      assigned, so a missing axis stays missing (and the first layout then
      throws): there is no default axis. */
  function ResolveAxis(xaxis: Option<seq<XAxisData>>, data: seq<GraphData>): (r: Option<seq<XAxisData>>)
    ensures r.None? <==> xaxis.None?
    ensures r.Some? ==> r.value == xaxis.value
  {
    var _ := AxisFallback(data);
    xaxis
  }

  // ------------------------------------------------------------ id lookup

  predicate OnAxis(xaxis: seq<XAxisData>, id: string)
  {
    exists k :: 0 <= k < |xaxis| && xaxis[k].id == id
  }

  /** `findIndex` on the axis ids: the first column with this id. */
  function IndexOf(xaxis: seq<XAxisData>, id: string): (r: Option<nat>)
    ensures r.None? <==> !OnAxis(xaxis, id)
    ensures r.Some? ==> r.value < |xaxis| && xaxis[r.value].id == id
                        && forall j :: 0 <= j < r.value ==> xaxis[j].id != id
    decreases |xaxis|
  {
    if xaxis == [] then None
    else if xaxis[0].id == id then Some(0)
    else
      match IndexOf(xaxis[1..], id)
      case None =>
        assert forall k :: 1 <= k < |xaxis| ==> xaxis[k] == xaxis[1..][k - 1];
        None
      case Some(k) => Some(k + 1)
  }

  /** `getX(id)`: the pixel x of the first column with this id, or
      `undefined` when no column has it. */
  function GetX(xaxis: seq<XAxisData>, xc: XCalc, id: string): (r: Option<real>)
    ensures |xc.positions| == |xaxis| ==> (r.Some? <==> OnAxis(xaxis, id))
  {
    match IndexOf(xaxis, id)
    case None => None
    case Some(k) => if k < |xc.positions| then Some(xc.positions[k].x) else None
  }

  /** The x of an id is that of its first column: later duplicates of the
      id are never reached. */
  lemma GetXFirstColumn(xaxis: seq<XAxisData>, xc: XCalc, id: string, k: nat)
    requires |xc.positions| == |xaxis| && k < |xaxis| && xaxis[k].id == id
    requires forall j :: 0 <= j < k ==> xaxis[j].id != id
    ensures GetX(xaxis, xc, id) == Some(xc.positions[k].x)
  {
  }

  /** Every series point and every swimlane interval names an axis column.
      (A marker list is never read by the swimlane, see `FillSwimlaneData`.) */
  predicate Anchored(xaxis: seq<XAxisData>, data: seq<GraphData>, lanes: seq<GraphSwimlaneData>)
  {
    && (forall i :: 0 <= i < |data| ==> OnAxis(xaxis, data[i].id))
    && (forall i :: 0 <= i < |lanes| ==> lanes[i].blocks.Some? ==>
          forall k :: 0 <= k < |lanes[i].blocks.value| ==>
            OnAxis(xaxis, lanes[i].blocks.value[k].id1) && OnAxis(xaxis, lanes[i].blocks.value[k].id2))
  }

  // ------------------------------------------------------ series circles

  /** The pixel y of a series value: `height - value * ycalc.height -
      marginBWithSwimlanes`. */
  function ValueToY(canvasHeight: real, yc: YCalc, v: real): real
  {
    canvasHeight - v * yc.height - yc.marginBWithSwimlanes
  }

  /** `fillCircles`: one circle per series point, in order. */
  function SeriesCircles(xaxis: seq<XAxisData>, xc: XCalc, yc: YCalc, data: seq<GraphData>,
                       canvasHeight: real, show: real -> string): (cs: seq<Circles.Circle>)
    requires |xc.positions| == |xaxis|
    requires forall i :: 0 <= i < |data| ==> OnAxis(xaxis, data[i].id)
    ensures |cs| == |data|
  {
    seq(|data|, k requires 0 <= k < |data| =>
          Circles.Circle(GetX(xaxis, xc, data[k].id).value, ValueToY(canvasHeight, yc, data[k].value),
                         3.0, 20.0, show(data[k].value)))
  }

  /** Circle k is series point k: its column's x, its value's y, 3 pixels
      wide with a 20-pixel hover diameter, captioned with the value. */
  lemma SeriesCirclesPlaced(xaxis: seq<XAxisData>, xc: XCalc, yc: YCalc, data: seq<GraphData>,
                            canvasHeight: real, show: real -> string, k: nat)
    requires |xc.positions| == |xaxis|
    requires forall i :: 0 <= i < |data| ==> OnAxis(xaxis, data[i].id)
    requires k < |data|
    ensures var c := SeriesCircles(xaxis, xc, yc, data, canvasHeight, show)[k];
            && Some(c.x) == GetX(xaxis, xc, data[k].id)
            && c.y == ValueToY(canvasHeight, yc, data[k].value)
            && c.d == 3.0 && c.mouseD == 20.0
            && c.caption == show(data[k].value)
  {
  }

  /** With the layout of the same canvas height, value 0 sits on the bottom
      gridline, `graphMaxValue` on the top one, and so does the largest value
      when it is a whole number; larger values sit higher when the plot has
      room. */
  lemma ValueToYOnGridlines(opts: GraphOptions, lanes: seq<GraphSwimlaneData>, canvasHeight: real,
                            data: seq<GraphData>, font: Font, show: real -> string)
    requires GraphMaxValue(data) > 0
    ensures var yc := CalcY(opts, lanes, canvasHeight, data, font, show);
            && ValueToY(canvasHeight, yc, 0.0) == yc.graphLines[2]
            && ValueToY(canvasHeight, yc, GraphMaxValue(data) as real) == yc.graphLines[0]
            && (MaxValue(data) == GraphMaxValue(data) as real ==> ValueToY(canvasHeight, yc, MaxValue(data)) == opts.marginTop)
  {
    var yc := CalcY(opts, lanes, canvasHeight, data, font, show);
    var avail := AvailableHeight(opts, |lanes|, canvasHeight);
    var m := GraphMaxValue(data) as real;
    assert yc.height == avail / m;
    assert m * (avail / m) == avail;
  }

  /** Larger values are drawn higher up whenever the plot has positive height. */
  lemma ValueToYDecreasing(opts: GraphOptions, lanes: seq<GraphSwimlaneData>, canvasHeight: real,
                           data: seq<GraphData>, font: Font, show: real -> string, v: real, w: real)
    requires GraphMaxValue(data) > 0
    requires 0.0 < AvailableHeight(opts, |lanes|, canvasHeight)
    requires v < w
    ensures var yc := CalcY(opts, lanes, canvasHeight, data, font, show);
            ValueToY(canvasHeight, yc, w) < ValueToY(canvasHeight, yc, v)
  {
    var yc := CalcY(opts, lanes, canvasHeight, data, font, show);
    var avail := AvailableHeight(opts, |lanes|, canvasHeight);
    var m := GraphMaxValue(data) as real;
    assert yc.height == avail / m;
    ScaleMonotone(avail / m, v, w);
  }

  lemma ScaleMonotone(k: real, v: real, w: real)
    requires 0.0 < k && v < w
    ensures v * k < w * k
  {
    assert w * k == v * k + (w - v) * k;
    assert (w - v) * k > 0.0;
  }

  /** `fillGraphYLines`: one segment per consecutive pair of circles. */
  predicate JoinsConsecutive(cs: seq<Circles.Circle>, lines: seq<Line>)
  {
    && |lines| == (if |cs| == 0 then 0 else |cs| - 1)
    && forall k :: 0 <= k < |lines| ==> lines[k] == Line(cs[k].x, cs[k].y, cs[k + 1].x, cs[k + 1].y)
  }

  /** The loop of `fillGraphYLines`: skip the first circle, then push the
      segment from the previous circle to the current one. */
  method GraphYLines(cs: seq<Circles.Circle>) returns (lines: seq<Line>)
    ensures JoinsConsecutive(cs, lines)
  {
    lines := [];
    for i := 0 to |cs|
      invariant |lines| == (if i == 0 then 0 else i - 1)
      invariant forall k :: 0 <= k < |lines| ==> lines[k] == Line(cs[k].x, cs[k].y, cs[k + 1].x, cs[k + 1].y)
    {
      if i == 0 { continue; }
      lines := lines + [Line(cs[i - 1].x, cs[i - 1].y, cs[i].x, cs[i].y)];
    }
  }

  // ----------------------------------------------------------- swimlanes

  /** The record `fillSwimlanes` hands to `new Swimlane` for lane i. Its
      markers travel under the name `squares`, which `Swimlane` does not
      read (it reads `circles`), so the lane sees no marker list; each
      interval becomes the pixel x of its two ids. */
  function FillSwimlaneData(lanes: seq<GraphSwimlaneData>, xaxis: seq<XAxisData>, xc: XCalc, yc: YCalc,
                            swimlaneHeight: real, i: nat): Swimlanes.SwimlaneData
    requires i < |lanes| && i < |yc.swimLanes|
    requires |xc.positions| == |xaxis| && Anchored(xaxis, [], lanes)
  {
    var lane := lanes[i];
    var blocks :=
      match lane.blocks
      case None => None
      case Some(bs) =>
        Some(seq(|bs|, k requires 0 <= k < |bs| =>
               Swimlanes.LaneBlockData(GetX(xaxis, xc, bs[k].id1).value, GetX(xaxis, xc, bs[k].id2).value, bs[k].caption)));
    Swimlanes.SwimlaneData(lane.caption, xc.graphMarginL, yc.swimLanes[i], swimlaneHeight, xc.graphMarginL, 16.0,
                           None, blocks)
  }

  /** Lane i's record: no marker list, row i's top, the configured height,
      16-pixel markers, starting at `graphMarginL`, the definition's caption,
      and per interval the x of both its ids and its caption. */
  lemma SwimlaneDataOf(lanes: seq<GraphSwimlaneData>, xaxis: seq<XAxisData>, xc: XCalc, yc: YCalc,
                       swimlaneHeight: real, i: nat)
    requires i < |lanes| && i < |yc.swimLanes|
    requires |xc.positions| == |xaxis| && Anchored(xaxis, [], lanes)
    ensures var sd := FillSwimlaneData(lanes, xaxis, xc, yc, swimlaneHeight, i);
            && sd.circles.None?
            && sd.y == yc.swimLanes[i] && sd.height == swimlaneHeight && sd.d == 16.0
            && sd.x == xc.graphMarginL && sd.caption == lanes[i].caption
            && (lanes[i].blocks.None? <==> sd.blocks.None?)
            && (lanes[i].blocks.Some? ==>
                  && |sd.blocks.value| == |lanes[i].blocks.value|
                  && forall k :: 0 <= k < |sd.blocks.value| ==>
                       && Some(sd.blocks.value[k].x1) == GetX(xaxis, xc, lanes[i].blocks.value[k].id1)
                       && Some(sd.blocks.value[k].x2) == GetX(xaxis, xc, lanes[i].blocks.value[k].id2)
                       && sd.blocks.value[k].caption == lanes[i].blocks.value[k].caption)
  {
  }

  /** `fillSwimlanes`: one swimlane per definition, in order. */
  function LaneList(lanes: seq<GraphSwimlaneData>, xaxis: seq<XAxisData>, xc: XCalc, yc: YCalc,
                         swimlaneHeight: real): seq<Swimlanes.Swimlane>
    requires |lanes| == |yc.swimLanes|
    requires |xc.positions| == |xaxis| && Anchored(xaxis, [], lanes)
  {
    seq(|lanes|, i requires 0 <= i < |lanes| =>
          Swimlanes.New(FillSwimlaneData(lanes, xaxis, xc, yc, swimlaneHeight, i)))
  }

  /** Swimlanes built by the graph have no marker circles at all, and each
      interval block spans from its first id's column to its second's on the
      lane's row. */
  lemma FilledSwimlanes(lanes: seq<GraphSwimlaneData>, xaxis: seq<XAxisData>, xc: XCalc, yc: YCalc,
                        swimlaneHeight: real, i: nat)
    requires |lanes| == |yc.swimLanes| && i < |lanes|
    requires |xc.positions| == |xaxis| && Anchored(xaxis, [], lanes)
    ensures var lane := LaneList(lanes, xaxis, xc, yc, swimlaneHeight)[i];
            && lane.circles == []
            && (lanes[i].blocks.Some? ==>
                  && |lane.blocks| == |lanes[i].blocks.value|
                  && forall k :: 0 <= k < |lane.blocks| ==>
                       && Some(lane.blocks[k].x1) == GetX(xaxis, xc, lanes[i].blocks.value[k].id1)
                       && Some(lane.blocks[k].x1 + lane.blocks[k].w) == GetX(xaxis, xc, lanes[i].blocks.value[k].id2)
                       && lane.blocks[k].y == yc.swimLanes[i])
  {
    var sd := FillSwimlaneData(lanes, xaxis, xc, yc, swimlaneHeight, i);
    SwimlaneDataOf(lanes, xaxis, xc, yc, swimlaneHeight, i);
    assert LaneList(lanes, xaxis, xc, yc, swimlaneHeight)[i] == Swimlanes.New(sd);
  }

  /** `fillX`: the axis below the plot, left of it the caption column. */
  function AxisOf(xc: XCalc, yc: YCalc, labelTextSize: real): Axis.XAxis
  {
    Axis.XAxis(xc.graphMarginL, yc.marginBWithSwimlanes, xc, labelTextSize)
  }

  /** Drawn at the canvas height the layout was computed for, the axis
      baseline lies on the bottom gridline and runs from `graphMarginL` to the
      last column; drawn at any other height (as after a resize, whose layout
      used the old height) it misses the bottom gridline. */
  lemma AxisBaseline(opts: GraphOptions, xaxis: seq<XAxisData>, lanes: seq<GraphSwimlaneData>,
                     boundsWidth: real, layoutHeight: real, drawHeight: real,
                     data: seq<GraphData>, font: Font, show: real -> string)
    requires |xaxis| > 0 && GraphMaxValue(data) > 0
    ensures var xc := CalcX(opts, xaxis, lanes, boundsWidth, font);
            var yc := CalcY(opts, lanes, layoutHeight, data, font, show);
            var base := Axis.AxisCommands(AxisOf(xc, yc, opts.labelTextSize), drawHeight)[0];
            && base.Segment? && base.y1 == base.y2
            && base.x1 == xc.graphMarginL
            && base.x2 == xc.graphMarginL + (|xaxis| - 1) as real * WidthBetween(opts, |xaxis|, lanes, boundsWidth, font)
            && (base.y1 == yc.graphLines[2] <==> drawHeight == layoutHeight)
  {
    CalcXColumns(opts, xaxis, lanes, boundsWidth, font);
    CalcYGridlines(opts, lanes, layoutHeight, data, font, show);
  }

  // -------------------------------------------------------------- overlay

  /** `drawOverlayAboveGraph`'s vertices: nothing without circles; otherwise
      the top-left corner, down the left edge to the first circle's height,
      every circle centre in order, across to the right edge at the last
      circle's height, and the top-right corner. */
  function OverlayVertices(cs: seq<Circles.Circle>, width: real): (vs: seq<Point>)
    ensures cs == [] ==> vs == []
    ensures cs != [] ==>
              && |vs| == |cs| + 4
              && vs[0] == Point(0.0, 0.0) && vs[1] == Point(0.0, cs[0].y)
              && (forall k :: 0 <= k < |cs| ==> vs[k + 2] == Point(cs[k].x, cs[k].y))
              && vs[|cs| + 2] == Point(width, cs[|cs| - 1].y) && vs[|cs| + 3] == Point(width, 0.0)
  {
    if cs == [] then []
    else
      [Point(0.0, 0.0), Point(0.0, cs[0].y)]
      + seq(|cs|, k requires 0 <= k < |cs| => Point(cs[k].x, cs[k].y))
      + [Point(width, cs[|cs| - 1].y), Point(width, 0.0)]
  }

  function OverlayCommands(cs: seq<Circles.Circle>, width: real): seq<Cmd>
  {
    if cs == [] then [] else [Polygon(OverlayVertices(cs, width))]
  }

  // -------------------------------------------------------- redraw check

  predicate AnyHovered(cs: seq<Circles.Circle>, mx: real, my: real)
  {
    exists k :: 0 <= k < |cs| && Circles.IsMouseOver(cs[k], mx, my)
  }

  /** `isRedrawRequired`, as a function of the cached canvas size, the
      current canvas size, the circles, the pointer, and the pointer stored
      by the last repaint. */
  function NeedsRedraw(cachedWidth: Option<real>, cachedHeight: Option<real>, width: real, height: real,
                       cs: seq<Circles.Circle>, mx: real, my: real,
                       lastX: Option<real>, lastY: Option<real>): bool
  {
    var onDrawElement := cachedWidth != Some(width) || cachedHeight != Some(height) || AnyHovered(cs, mx, my);
    if !onDrawElement && (mx < 0.0 || mx > width || my < 0.0 || my > height) then false
    else if !onDrawElement && lastX == Some(mx) && lastY == Some(my) then false
    else true
  }

  /** The four rules of the check: a changed size or a hovered circle always
      repaints; otherwise a pointer outside the canvas, or at the position of
      the last repaint, does not; anything else does. */
  lemma NeedsRedrawRules(cachedWidth: Option<real>, cachedHeight: Option<real>, width: real, height: real,
                         cs: seq<Circles.Circle>, mx: real, my: real, lastX: Option<real>, lastY: Option<real>)
    ensures cachedWidth != Some(width) || cachedHeight != Some(height) ==>
              NeedsRedraw(cachedWidth, cachedHeight, width, height, cs, mx, my, lastX, lastY)
    ensures (exists k :: 0 <= k < |cs| && Circles.IsMouseOver(cs[k], mx, my)) ==>
              NeedsRedraw(cachedWidth, cachedHeight, width, height, cs, mx, my, lastX, lastY)
    ensures cachedWidth == Some(width) && cachedHeight == Some(height)
            && (forall k :: 0 <= k < |cs| ==> !Circles.IsMouseOver(cs[k], mx, my)) ==>
              (NeedsRedraw(cachedWidth, cachedHeight, width, height, cs, mx, my, lastX, lastY)
               <==> 0.0 <= mx <= width && 0.0 <= my <= height && (lastX != Some(mx) || lastY != Some(my)))
  {
  }

  /** Two ticks with the same pointer and canvas size: whatever the first
      decided, the second does not repaint unless a circle is hovered. The
      first tick caches the size, and stores the pointer if it repainted. */
  lemma StillPointerNoRedraw(cachedWidth: Option<real>, cachedHeight: Option<real>, width: real, height: real,
                             cs: seq<Circles.Circle>, mx: real, my: real, lastX: Option<real>, lastY: Option<real>)
    requires !AnyHovered(cs, mx, my)
    ensures var first := NeedsRedraw(cachedWidth, cachedHeight, width, height, cs, mx, my, lastX, lastY);
            var (lastX', lastY') := if first then (Some(mx), Some(my)) else (lastX, lastY);
            !NeedsRedraw(Some(width), Some(height), width, height, cs, mx, my, lastX', lastY')
  {
  }

  // -------------------------------------------------------- paint order

  /** `Array.prototype.reverse` as a value. */
  function Reversed<T>(s: seq<T>): (r: seq<T>)
    ensures |r| == |s|
    decreases |s|
  {
    if s == [] then [] else Reversed(s[1..]) + [s[0]]
  }

  lemma {:induction false} ReversedAt<T>(s: seq<T>, k: nat)
    requires k < |s|
    ensures Reversed(s)[k] == s[|s| - 1 - k]
    decreases |s|
  {
    if k < |s| - 1 { ReversedAt(s[1..], k); }
  }

  /** Reversing twice restores the order: the swimlane list, reversed in
      place on every repaint, alternates between two orders. */
  lemma ReversedTwice<T>(s: seq<T>)
    ensures Reversed(Reversed(s)) == s
  {
    var r := Reversed(s);
    forall k | 0 <= k < |s|
      ensures Reversed(r)[k] == s[k]
    {
      ReversedAt(r, k);
      ReversedAt(s, |s| - 1 - k);
    }
  }

  function LanesCommands(lanes: seq<Swimlanes.Swimlane>, mx: real, my: real): seq<Cmd>
    decreases |lanes|
  {
    if lanes == [] then [] else Swimlanes.Draw(lanes[0], mx, my) + LanesCommands(lanes[1..], mx, my)
  }

  /** The gridlines: a line from right of the label column to the right
      edge, and the label at x = 10, for each. */
  function GridCommands(lines: seq<real>, labels: seq<string>, labelsWidth: real, width: real): (cmds: seq<Cmd>)
    requires |labels| >= |lines|
    ensures |cmds| == 2 * |lines|
    decreases |lines|
  {
    if lines == [] then []
    else [Segment(labelsWidth + 20.0, lines[0], width, lines[0]), Text(labels[0], 10.0, lines[0])]
         + GridCommands(lines[1..], labels[1..], labelsWidth, width)
  }

  /** Gridline k paints commands 2k and 2k + 1: its line from right of the
      label column to the right edge, then its label at x = 10. */
  lemma {:induction false} GridCommandsAt(lines: seq<real>, labels: seq<string>, labelsWidth: real, width: real, k: nat)
    requires |labels| >= |lines| && k < |lines|
    ensures var cmds := GridCommands(lines, labels, labelsWidth, width);
            && cmds[2 * k] == Segment(labelsWidth + 20.0, lines[k], width, lines[k])
            && cmds[2 * k + 1] == Text(labels[k], 10.0, lines[k])
    decreases |lines|
  {
    if k > 0 { GridCommandsAt(lines[1..], labels[1..], labelsWidth, width, k - 1); }
  }

  /** The swimlane rows: a full-width line on top of each, its caption at
      half the row height, and a closing line under the last one. */
  function RowCommands(rows: seq<real>, captions: seq<string>, swimlaneHeight: real, width: real): (cmds: seq<Cmd>)
    requires |captions| >= |rows|
    ensures |cmds| == 2 * |rows| + (if rows == [] then 0 else 1)
    decreases |rows|
  {
    if rows == [] then []
    else [Segment(0.0, rows[0], width, rows[0]), Text(captions[0], 10.0, rows[0] + swimlaneHeight / 2.0)]
         + (if |rows| == 1 then [Segment(0.0, rows[0] + swimlaneHeight, width, rows[0] + swimlaneHeight)] else [])
         + RowCommands(rows[1..], captions[1..], swimlaneHeight, width)
  }

  /** Row k paints commands 2k and 2k + 1: a full-width line at its top,
      then its caption at x = 10, half a row down. The one command after all
      rows is the closing line under the last row. */
  lemma {:induction false} RowCommandsAt(rows: seq<real>, captions: seq<string>, swimlaneHeight: real, width: real, k: nat)
    requires |captions| >= |rows| && k < |rows|
    ensures var cmds := RowCommands(rows, captions, swimlaneHeight, width);
            var last := rows[|rows| - 1];
            && cmds[2 * k] == Segment(0.0, rows[k], width, rows[k])
            && cmds[2 * k + 1] == Text(captions[k], 10.0, rows[k] + swimlaneHeight / 2.0)
            && cmds[2 * |rows|] == Segment(0.0, last + swimlaneHeight, width, last + swimlaneHeight)
    decreases |rows|
  {
    if |rows| > 1 {
      RowCommandsAt(rows[1..], captions[1..], swimlaneHeight, width, if k > 0 then k - 1 else 0);
    }
  }

  function LineCommands(lines: seq<Line>): (cmds: seq<Cmd>)
    ensures |cmds| == |lines|
    decreases |lines|
  {
    if lines == [] then [] else [Segment(lines[0].x1, lines[0].y1, lines[0].x2, lines[0].y2)] + LineCommands(lines[1..])
  }

  /** Series line k paints the segment between its two ends. */
  lemma {:induction false} LineCommandsAt(lines: seq<Line>, k: nat)
    requires k < |lines|
    ensures LineCommands(lines)[k] == Segment(lines[k].x1, lines[k].y1, lines[k].x2, lines[k].y2)
    decreases |lines|
  {
    if k > 0 { LineCommandsAt(lines[1..], k - 1); }
  }

  function CircleCommands(cs: seq<Circles.Circle>): (cmds: seq<Cmd>)
    ensures |cmds| == |cs|
    decreases |cs|
  {
    if cs == [] then [] else Circles.Draw(cs[0]) + CircleCommands(cs[1..])
  }

  function Captions(lanes: seq<GraphSwimlaneData>): seq<string>
  {
    seq(|lanes|, i requires 0 <= i < |lanes| => lanes[i].caption)
  }

  /** What painting a frame needs of the layout: a non-empty axis, a label
      for every gridline and a caption for every swimlane row. */
  predicate Paintable(axis: Axis.XAxis, yc: YCalc, captions: seq<string>)
  {
    |axis.xcalc.positions| > 0 && |yc.lineLabels| >= |yc.graphLines| && |captions| >= |yc.swimLanes|
  }

  /** One repaint, bottom layer first: clear, swimlanes, axis, the overlay
      above the series, gridlines, swimlane rows, series lines, series
      circles. */
  function FrameCommands(lanes: seq<Swimlanes.Swimlane>, axis: Axis.XAxis, cs: seq<Circles.Circle>,
                         lines: seq<Line>, yc: YCalc, captions: seq<string>, swimlaneHeight: real,
                         width: real, height: real, mx: real, my: real): seq<Cmd>
    requires Paintable(axis, yc, captions)
  {
    [Background, TextAlign(Left, Top)]
    + LanesCommands(lanes, mx, my)
    + Axis.AxisCommands(axis, height)
    + OverlayCommands(cs, width)
    + [TextAlign(Left, Middle)]
    + GridCommands(yc.graphLines, yc.lineLabels, yc.maxLineLabelsWidth, width)
    + RowCommands(yc.swimLanes, captions, swimlaneHeight, width)
    + LineCommands(lines)
    + CircleCommands(cs)
  }

  lemma {:induction false} CircleCommandsAt(cs: seq<Circles.Circle>, k: nat)
    requires k < |cs|
    ensures CircleCommands(cs)[k] == Ellipse(cs[k].x, cs[k].y, cs[k].d)
    decreases |cs|
  {
    if k > 0 { CircleCommandsAt(cs[1..], k - 1); }
  }

  /** The layers of a repaint, bottom first: the clear and the top-left
      anchor, the swimlanes, the axis, the overlay, the middle-left anchor,
      the gridlines, the swimlane rows, the series lines and the series
      circles. */
  function FrameLayerList(lanes: seq<Swimlanes.Swimlane>, axis: Axis.XAxis, cs: seq<Circles.Circle>,
                          lines: seq<Line>, yc: YCalc, captions: seq<string>, swimlaneHeight: real,
                          width: real, height: real, mx: real, my: real): seq<seq<Cmd>>
    requires Paintable(axis, yc, captions)
  {
    [ [Background, TextAlign(Left, Top)],
      LanesCommands(lanes, mx, my),
      Axis.AxisCommands(axis, height),
      OverlayCommands(cs, width),
      [TextAlign(Left, Middle)],
      GridCommands(yc.graphLines, yc.lineLabels, yc.maxLineLabelsWidth, width),
      RowCommands(yc.swimLanes, captions, swimlaneHeight, width),
      LineCommands(lines),
      CircleCommands(cs) ]
  }

  /** A repaint paints its nine layers in that order, each one starting
      right after all the layers below it. */
  lemma FrameLayers(lanes: seq<Swimlanes.Swimlane>, axis: Axis.XAxis, cs: seq<Circles.Circle>,
                    lines: seq<Line>, yc: YCalc, captions: seq<string>, swimlaneHeight: real,
                    width: real, height: real, mx: real, my: real)
    requires Paintable(axis, yc, captions)
    ensures var f := FrameCommands(lanes, axis, cs, lines, yc, captions, swimlaneHeight, width, height, mx, my);
            var layers := FrameLayerList(lanes, axis, cs, lines, yc, captions, swimlaneHeight, width, height, mx, my);
            && |layers| == 9
            && f == Concat(layers)
            && |Concat(layers[..0])| == 0
            && (forall i :: 0 <= i < 9 ==> |Concat(layers[..i + 1])| == |Concat(layers[..i])| + |layers[i]|)
            && forall i :: 0 <= i < 9 ==> Occupies(f, |Concat(layers[..i])|, layers[i])
  {
    var layers := FrameLayerList(lanes, axis, cs, lines, yc, captions, swimlaneHeight, width, height, mx, my);
    ConcatNine(layers[0], layers[1], layers[2], layers[3], layers[4], layers[5], layers[6], layers[7], layers[8]);
    assert layers == [layers[0], layers[1], layers[2], layers[3], layers[4], layers[5], layers[6], layers[7], layers[8]];
    assert layers[..0] == [];
    forall i | 0 <= i < 9
      ensures |Concat(layers[..i + 1])| == |Concat(layers[..i])| + |layers[i]|
      ensures Occupies(Concat(layers), |Concat(layers[..i])|, layers[i])
    {
      ConcatStep(layers, i);
      ConcatOccupies(layers, i);
    }
  }

  /** A repaint starts by clearing the canvas and ends with the series
      circles, in series order, so they are painted over everything else. */
  lemma FrameOrder(lanes: seq<Swimlanes.Swimlane>, axis: Axis.XAxis, cs: seq<Circles.Circle>,
                   lines: seq<Line>, yc: YCalc, captions: seq<string>, swimlaneHeight: real,
                   width: real, height: real, mx: real, my: real)
    requires Paintable(axis, yc, captions)
    ensures var f := FrameCommands(lanes, axis, cs, lines, yc, captions, swimlaneHeight, width, height, mx, my);
            && |f| >= |cs| + 3
            && f[0] == Background
            && forall k :: 0 <= k < |cs| ==> f[|f| - |cs| + k] == Ellipse(cs[k].x, cs[k].y, cs[k].d)
  {
    var f := FrameCommands(lanes, axis, cs, lines, yc, captions, swimlaneHeight, width, height, mx, my);
    var tail := CircleCommands(cs);
    assert f[|f| - |cs|..] == tail;
    forall k | 0 <= k < |cs|
      ensures f[|f| - |cs| + k] == Ellipse(cs[k].x, cs[k].y, cs[k].d)
    {
      CircleCommandsAt(cs, k);
      assert f[|f| - |cs| + k] == tail[k];
    }
  }

  /** The inputs a chart can be laid out from: a non-empty axis that every
      series point and swimlane interval is anchored on, and a positive
      rounded maximum. */
  predicate WellFormed(xaxis: seq<XAxisData>, data: seq<GraphData>, lanes: seq<GraphSwimlaneData>)
  {
    |xaxis| > 0 && Anchored(xaxis, data, lanes) && GraphMaxValue(data) > 0
  }

  /** What `calcAndFill` derives for one container width and canvas height
      (the series lines follow from the circles). */
  datatype Derived = Derived(xcalc: XCalc, ycalc: YCalc, circles: seq<Circles.Circle>,
                             lanes: seq<Swimlanes.Swimlane>, xAxis: Axis.XAxis)

  function LayoutOf(options: GraphOptions, xaxis: seq<XAxisData>, data: seq<GraphData>,
                    lanes: seq<GraphSwimlaneData>, font: Font, show: real -> string,
                    boundsWidth: real, canvasHeight: real): Derived
    requires WellFormed(xaxis, data, lanes)
  {
    var xc := CalcX(options, xaxis, lanes, boundsWidth, font);
    var yc := CalcY(options, lanes, canvasHeight, data, font, show);
    assert Anchored(xaxis, [], lanes);
    Derived(xc, yc, SeriesCircles(xaxis, xc, yc, data, canvasHeight, show),
            LaneList(lanes, xaxis, xc, yc, options.swimlaneHeight), AxisOf(xc, yc, options.labelTextSize))
  }

  /** Derived state that is the layout of the given container width and
      canvas height: the series lines join the circles, and the swimlanes
      are the built ones, in their built order or, when `reversed`, reversed. */
  predicate LaidOut(options: GraphOptions, xaxis: seq<XAxisData>, data: seq<GraphData>,
                    lanes: seq<GraphSwimlaneData>, font: Font, show: real -> string,
                    boundsWidth: real, canvasHeight: real,
                    xcalc: XCalc, ycalc: YCalc, circles: seq<Circles.Circle>, lines: seq<Line>,
                    swimlanes: seq<Swimlanes.Swimlane>, reversed: bool, axis: Axis.XAxis)
  {
    && WellFormed(xaxis, data, lanes)
    && var d := LayoutOf(options, xaxis, data, lanes, font, show, boundsWidth, canvasHeight);
       && xcalc == d.xcalc && ycalc == d.ycalc && circles == d.circles && axis == d.xAxis
       && JoinsConsecutive(circles, lines)
       && swimlanes == (if reversed then Reversed(d.lanes) else d.lanes)
  }

  /** Reversing the swimlanes in place keeps the state laid out, with the
      order flag flipped. */
  lemma ReversingKeepsLaidOut(options: GraphOptions, xaxis: seq<XAxisData>, data: seq<GraphData>,
                              lanes: seq<GraphSwimlaneData>, font: Font, show: real -> string,
                              boundsWidth: real, canvasHeight: real,
                              xcalc: XCalc, ycalc: YCalc, circles: seq<Circles.Circle>, lines: seq<Line>,
                              swimlanes: seq<Swimlanes.Swimlane>, reversed: bool, axis: Axis.XAxis)
    requires LaidOut(options, xaxis, data, lanes, font, show, boundsWidth, canvasHeight,
                     xcalc, ycalc, circles, lines, swimlanes, reversed, axis)
    ensures LaidOut(options, xaxis, data, lanes, font, show, boundsWidth, canvasHeight,
                    xcalc, ycalc, circles, lines, Reversed(swimlanes), !reversed, axis)
  {
    ReversedTwice(LayoutOf(options, xaxis, data, lanes, font, show, boundsWidth, canvasHeight).lanes);
  }

  /** A tick leaves the swimlanes alone or reverses them; either way the
      state stays laid out, with the order flag flipped when they moved. */
  lemma TickKeepsLaidOut(options: GraphOptions, xaxis: seq<XAxisData>, data: seq<GraphData>,
                         lanes: seq<GraphSwimlaneData>, font: Font, show: real -> string,
                         boundsWidth: real, canvasHeight: real,
                         xcalc: XCalc, ycalc: YCalc, circles: seq<Circles.Circle>, lines: seq<Line>,
                         swimlanes: seq<Swimlanes.Swimlane>, reversed: bool, axis: Axis.XAxis,
                         after: seq<Swimlanes.Swimlane>)
    requires LaidOut(options, xaxis, data, lanes, font, show, boundsWidth, canvasHeight,
                     xcalc, ycalc, circles, lines, swimlanes, reversed, axis)
    requires after == swimlanes || after == Reversed(swimlanes)
    ensures LaidOut(options, xaxis, data, lanes, font, show, boundsWidth, canvasHeight,
                    xcalc, ycalc, circles, lines, after, if after == swimlanes then reversed else !reversed, axis)
  {
    if after != swimlanes {
      ReversingKeepsLaidOut(options, xaxis, data, lanes, font, show, boundsWidth, canvasHeight,
                            xcalc, ycalc, circles, lines, swimlanes, reversed, axis);
    }
  }

  /** The sizes painting relies on: a non-empty axis, three labelled
      gridlines, one row per swimlane. */
  lemma LaidOutShapes(options: GraphOptions, xaxis: seq<XAxisData>, data: seq<GraphData>,
                      lanes: seq<GraphSwimlaneData>, font: Font, show: real -> string,
                      boundsWidth: real, canvasHeight: real,
                      xcalc: XCalc, ycalc: YCalc, circles: seq<Circles.Circle>, lines: seq<Line>,
                      swimlanes: seq<Swimlanes.Swimlane>, reversed: bool, axis: Axis.XAxis)
    requires LaidOut(options, xaxis, data, lanes, font, show, boundsWidth, canvasHeight,
                     xcalc, ycalc, circles, lines, swimlanes, reversed, axis)
    ensures |axis.xcalc.positions| == |xaxis| > 0
    ensures |ycalc.graphLines| == 3 && |ycalc.lineLabels| == 3
    ensures |ycalc.swimLanes| == |lanes| == |Captions(lanes)|
    ensures Paintable(axis, ycalc, Captions(lanes))
  {
  }

  /** The bottom gridline moves with the canvas height the layout is
      computed for, pixel for pixel. `resize(w, h)` lays out for the height
      the canvas had before, so repeating the same `resize` on a canvas whose
      height changes lays the chart out differently the second time. */
  lemma LayoutFollowsHeight(options: GraphOptions, xaxis: seq<XAxisData>, data: seq<GraphData>,
                            lanes: seq<GraphSwimlaneData>, font: Font, show: real -> string,
                            boundsWidth: real, h1: real, h2: real)
    requires WellFormed(xaxis, data, lanes)
    ensures var d1 := LayoutOf(options, xaxis, data, lanes, font, show, boundsWidth, h1);
            var d2 := LayoutOf(options, xaxis, data, lanes, font, show, boundsWidth, h2);
            && |d1.ycalc.graphLines| == |d2.ycalc.graphLines| == 3
            && d1.ycalc.graphLines[2] - d2.ycalc.graphLines[2] == h1 - h2
  {
    CalcYGridlines(options, lanes, h1, data, font, show);
    CalcYGridlines(options, lanes, h2, data, font, show);
  }
}
