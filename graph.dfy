/** The `Graph` object of `graph.ts`: the chart's inputs, its derived layout
    and shapes, the size cache and pointer memory of the repaint rule, and
    the canvas size, with the methods that recompute, resize and draw. */
module Graphs {
  import opened Canvas
  import opened XCalcs
  import opened Layout
  import opened GraphLayout
  import Circles
  import Swimlanes
  import Axis

  // ---------------------------------------------------------------- Graph

  /** The chart object: its inputs, the derived layout and shapes, the size
      cache and pointer memory of the redraw check, and the p5 canvas size. */
  class Graph {
    const options: GraphOptions
    const xaxis: seq<XAxisData>
    const graphData: seq<GraphData>
    const swimlaneData: seq<GraphSwimlaneData>
    const font: Font
    const show: real -> string

    var xcalc: XCalc
    var ycalc: YCalc
    var graphCircles: seq<Circles.Circle>
    var graphLines: seq<Line>
    var swimlanes: seq<Swimlanes.Swimlane>
    var xAxis: Axis.XAxis

    var canvasWidth: Option<real>
    var canvasHeight: Option<real>
    var mouseX: Option<real>
    var mouseY: Option<real>

    var width: real
    var height: real

    /** What every method keeps: the inputs are well formed (a non-empty
        axis that every id is on, and a positive series maximum) and the
        derived layout can be painted. The layout itself is stated by
        `CalcAndFill`, `Resize` and `Draw` through `LaidOut`. */
    ghost predicate Valid()
      reads this`ycalc, this`xAxis
    {
      WellFormed(xaxis, graphData, swimlaneData) && Paintable(xAxis, ycalc, Captions(swimlaneData))
    }

    /** The constructor with its canvas created at the container's size.
        The axis it keeps is `ResolveAxis` of the one given, so a missing
        axis stays missing; the layout then needs one. */
    constructor (options: Option<GraphOptions>, xaxis: Option<seq<XAxisData>>, graphData: seq<GraphData>,
                 swimlaneData: seq<GraphSwimlaneData>, boundsWidth: real, boundsHeight: real,
                 font: Font, show: real -> string)
      requires ResolveAxis(xaxis, graphData).Some?
      requires WellFormed(ResolveAxis(xaxis, graphData).value, graphData, swimlaneData)
      ensures Valid()
      ensures this.options == ResolveOptions(options) && this.xaxis == ResolveAxis(xaxis, graphData).value
      ensures this.graphData == graphData && this.swimlaneData == swimlaneData
      ensures this.font == font && this.show == show
      ensures width == boundsWidth && height == boundsHeight
      ensures LaidOut(this.options, this.xaxis, graphData, swimlaneData, font, show, boundsWidth, boundsHeight,
                      xcalc, ycalc, graphCircles, graphLines, swimlanes, false, xAxis)
      ensures canvasWidth == None && canvasHeight == None && mouseX == None && mouseY == None
    {
      this.options := ResolveOptions(options);
      this.xaxis := ResolveAxis(xaxis, graphData).value;
      this.graphData := graphData;
      this.swimlaneData := swimlaneData;
      this.font := font;
      this.show := show;
      width, height := boundsWidth, boundsHeight;
      canvasWidth, canvasHeight, mouseX, mouseY := None, None, None, None;
      new;
      CalcAndFill(boundsWidth);
    }

    /** `calcAndFill`: `calcX` for the given container width, `calcY` for
        the canvas's current height, then `fillCircles`, `fillGraphYLines`,
        `fillSwimlanes` and `fillX` from that layout, in that order. */
    method CalcAndFill(boundsWidth: real)
      requires WellFormed(xaxis, graphData, swimlaneData)
      modifies this`xcalc, this`ycalc, this`graphCircles, this`graphLines, this`swimlanes, this`xAxis
      ensures Valid()
      ensures LaidOut(options, xaxis, graphData, swimlaneData, font, show, boundsWidth, height,
                      xcalc, ycalc, graphCircles, graphLines, swimlanes, false, xAxis)
    {
      xcalc := Layout.CalcX(options, xaxis, swimlaneData, boundsWidth, font);
      ycalc := Layout.CalcY(options, swimlaneData, height, graphData, font, show);
      assert |xcalc.positions| == |xaxis| && |ycalc.swimLanes| == |swimlaneData|;
      assert Anchored(xaxis, [], swimlaneData);
      graphCircles := SeriesCircles(xaxis, xcalc, ycalc, graphData, height, show);
      graphLines := GraphYLines(graphCircles);
      swimlanes := LaneList(swimlaneData, xaxis, xcalc, ycalc, options.swimlaneHeight);
      xAxis := AxisOf(xcalc, ycalc, options.labelTextSize);
      LaidOutShapes(options, xaxis, graphData, swimlaneData, font, show, boundsWidth, height,
                    xcalc, ycalc, graphCircles, graphLines, swimlanes, false, xAxis);
    }

    /** `resize`: the layout is recomputed before the canvas is resized, so
        it is computed for the container's new width but the canvas's old
        height. */
    method Resize(boundsWidth: real, newWidth: real, newHeight: real)
      requires Valid()
      modifies this`xcalc, this`ycalc, this`graphCircles, this`graphLines, this`swimlanes, this`xAxis
      modifies this`width, this`height
      ensures Valid()
      ensures LaidOut(options, xaxis, graphData, swimlaneData, font, show, boundsWidth, old(height),
                      xcalc, ycalc, graphCircles, graphLines, swimlanes, false, xAxis)
      ensures width == newWidth && height == newHeight
    {
      CalcAndFill(boundsWidth);
      width, height := newWidth, newHeight;
    }

    /** `isRedrawRequired`: caches the canvas size and scans the circles for
        a hovered one, stopping at the first. */
    method IsRedrawRequired(mx: real, my: real) returns (redraw: bool)
      modifies this`canvasWidth, this`canvasHeight
      ensures redraw == NeedsRedraw(old(canvasWidth), old(canvasHeight), width, height,
                                    graphCircles, mx, my, mouseX, mouseY)
      ensures canvasWidth == Some(width) && canvasHeight == Some(height)
    {
      var onDrawElement := false;
      ghost var sizeChanged := canvasWidth != Some(width) || canvasHeight != Some(height);
      if canvasWidth != Some(width) || canvasHeight != Some(height) {
        canvasWidth := Some(width);
        canvasHeight := Some(height);
        onDrawElement := true;
      }
      var index := 0;
      while index < |graphCircles|
        invariant 0 <= index <= |graphCircles|
        invariant onDrawElement == sizeChanged
        invariant forall k :: 0 <= k < index ==> !Circles.IsMouseOver(graphCircles[k], mx, my)
      {
        if Circles.IsMouseOver(graphCircles[index], mx, my) {
          onDrawElement := true;
          break;
        }
        index := index + 1;
      }
      assert onDrawElement == (sizeChanged || AnyHovered(graphCircles, mx, my));
      if !onDrawElement && (mx < 0.0 || mx > width || my < 0.0 || my > height) {
        return false;
      }
      if !onDrawElement && mouseX == Some(mx) && mouseY == Some(my) {
        return false;
      }
      return true;
    }

    /** `draw`, run on every animation tick with the pointer at (mx, my):
        nothing unless the check asks for a repaint; otherwise it stores the
        pointer, reverses the swimlane list in place, and paints the frame
        with the lanes in their new order. */
    method Draw(mx: real, my: real) returns (cmds: seq<Cmd>)
      requires Valid()
      modifies this`canvasWidth, this`canvasHeight, this`mouseX, this`mouseY, this`swimlanes
      ensures Valid()
      ensures var redraw := NeedsRedraw(old(canvasWidth), old(canvasHeight), width, height,
                                        graphCircles, mx, my, old(mouseX), old(mouseY));
              && (redraw ==> mouseX == Some(mx) && mouseY == Some(my) && swimlanes == Reversed(old(swimlanes)))
              && (!redraw ==> unchanged(this`mouseX, this`mouseY, this`swimlanes) && cmds == [])
              && (redraw ==> cmds == FrameCommands(swimlanes, xAxis, graphCircles, graphLines, ycalc,
                                                   Captions(swimlaneData), options.swimlaneHeight,
                                                   width, height, mx, my))
      ensures canvasWidth == Some(width) && canvasHeight == Some(height)
    {
      var redraw := IsRedrawRequired(mx, my);
      if !redraw {
        return [];
      }
      mouseX, mouseY := Some(mx), Some(my);
      swimlanes := Reversed(swimlanes);
      cmds := Paint(mx, my);
    }

    /** The painting half of `draw`: every layer, bottom first, with the
        swimlanes in their current order. */
    method Paint(mx: real, my: real) returns (cmds: seq<Cmd>)
      requires Valid()
      ensures cmds == FrameCommands(swimlanes, xAxis, graphCircles, graphLines, ycalc,
                                    Captions(swimlaneData), options.swimlaneHeight,
                                    width, height, mx, my)
    {
      cmds := [Background, TextAlign(Left, Top)] + LanesCommands(swimlanes, mx, my);
      var axisCmds := Axis.Draw(xAxis, height);
      cmds := cmds + axisCmds + OverlayCommands(graphCircles, width) + [TextAlign(Left, Middle)];
      cmds := cmds + GridCommands(ycalc.graphLines, ycalc.lineLabels, ycalc.maxLineLabelsWidth, width);
      cmds := cmds + RowCommands(ycalc.swimLanes, Captions(swimlaneData), options.swimlaneHeight, width);
      cmds := cmds + LineCommands(graphLines) + CircleCommands(graphCircles);
    }
  }

  /** A host that ticks twice with a still pointer that hovers no circle
      gets at most one repaint. */
  method StillPointerTicks(g: Graph, mx: real, my: real) returns (first: seq<Cmd>, second: seq<Cmd>)
    requires g.Valid() && !AnyHovered(g.graphCircles, mx, my)
    modifies g
    ensures second == []
  {
    first := g.Draw(mx, my);
    second := g.Draw(mx, my);
  }

  /** Every tick keeps the derived state laid out for the same container
      width and canvas height: a tick that repaints flips the swimlanes
      between their built order and its reverse, one that does not leaves
      them alone. */
  method DrawKeepsLayout(g: Graph, mx: real, my: real,
                         ghost boundsWidth: real, ghost canvasHeight: real, ghost reversed: bool)
    returns (cmds: seq<Cmd>, ghost nowReversed: bool)
    requires g.Valid()
    requires LaidOut(g.options, g.xaxis, g.graphData, g.swimlaneData, g.font, g.show, boundsWidth, canvasHeight,
                     g.xcalc, g.ycalc, g.graphCircles, g.graphLines, g.swimlanes, reversed, g.xAxis)
    modifies g
    ensures g.Valid()
    ensures LaidOut(g.options, g.xaxis, g.graphData, g.swimlaneData, g.font, g.show, boundsWidth, canvasHeight,
                    g.xcalc, g.ycalc, g.graphCircles, g.graphLines, g.swimlanes, nowReversed, g.xAxis)
  {
    ghost var before := g.swimlanes;
    cmds := g.Draw(mx, my);
    TickKeepsLaidOut(g.options, g.xaxis, g.graphData, g.swimlaneData, g.font, g.show, boundsWidth, canvasHeight,
                     g.xcalc, g.ycalc, g.graphCircles, g.graphLines, before, reversed, g.xAxis, g.swimlanes);
    nowReversed := if g.swimlanes == before then reversed else !reversed;
  }
}
