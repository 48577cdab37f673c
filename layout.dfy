/** The layout calculator of `graph.ts` (`calcX`, `calcY`): from the canvas
    size, the axis, the swimlane captions and the series values it derives
    the pixel x of every axis column and which of them are labelled, the
    gridlines, the swimlane rows, and the value-to-pixel scale. */
module Layout {
  import opened Canvas
  import opened XCalcs

  /** `GraphOptions`; the two font sizes only select the font metrics. */
  datatype GraphOptions = GraphOptions(
    marginTop: real, marginRight: real, marginBottom: real, marginLeft: real,
    spaceGraphSwimlanes: real, swimlaneHeight: real,
    xAxisFormatter: string -> string, textSize: real, labelTextSize: real)

  /** An axis tick: its id and the raw data its label is formatted from. */
  datatype XAxisData = XAxisData(id: string, data: string)

  /** A series point. */
  datatype GraphData = GraphData(id: string, value: real)

  /** A square marker of a swimlane, anchored to one axis tick (colours are left out). */
  datatype SquareRef = SquareRef(id: string, value: string)

  /** An interval of a swimlane, between two axis ticks (colours are left out). */
  datatype BlockRef = BlockRef(id1: string, id2: string, caption: string)

  /** `GraphSwimlaneData`; absent lists are `None`. */
  datatype GraphSwimlaneData = GraphSwimlaneData(
    caption: string, squares: Option<seq<SquareRef>>, blocks: Option<seq<BlockRef>>)

  // ---------------------------------------------------------------- X side

  /** The widest swimlane caption, or 0 when there is none. */
  function MaxSwimlaneLabelWidth(lanes: seq<GraphSwimlaneData>, font: Font): real
  {
    MaxReduce(0.0, seq(|lanes|, i requires 0 <= i < |lanes| => font.textWidth(lanes[i].caption)))
  }

  /** `graphMarginL`: the configured left margin plus the widest caption. */
  function GraphMarginL(opts: GraphOptions, lanes: seq<GraphSwimlaneData>, font: Font): real
  {
    MaxSwimlaneLabelWidth(lanes, font) + opts.marginLeft
  }

  /** `widthBetween`: the width left between the margins, split evenly
      over the columns (an empty axis has no column to space). */
  function WidthBetween(opts: GraphOptions, n: nat, lanes: seq<GraphSwimlaneData>,
                        boundsWidth: real, font: Font): real
  {
    if n == 0 then 0.0
    else (boundsWidth - (GraphMarginL(opts, lanes, font) + opts.marginRight)) / n as real
  }

  /** `split = Math.round(n / 3)`. */
  function Split(n: nat): int
  {
    Round(n as real / 3.0)
  }

  /** `x % split === 0 || x === n - 1`; in JavaScript `x % 0` is NaN, so a
      split of 0 marks only the last column. */
  predicate HasMark(i: nat, n: nat)
  {
    var split := Split(n);
    (split != 0 && i % split == 0) || i == n - 1
  }

  /** `calcX`. */
  function CalcX(opts: GraphOptions, xaxis: seq<XAxisData>, lanes: seq<GraphSwimlaneData>,
                 boundsWidth: real, font: Font): XCalc
  {
    var n := |xaxis|;
    var marginL := GraphMarginL(opts, lanes, font);
    var between := WidthBetween(opts, n, lanes, boundsWidth, font);
    XCalc(marginL,
          seq(n, i requires 0 <= i < n =>
                XPosition(marginL + i as real * between, HasMark(i, n), opts.xAxisFormatter(xaxis[i].data))))
  }

  /** The left margin covers the configured margin and every swimlane caption. */
  lemma MarginCoversCaptions(opts: GraphOptions, lanes: seq<GraphSwimlaneData>, font: Font)
    ensures GraphMarginL(opts, lanes, font) >= opts.marginLeft
    ensures forall i :: 0 <= i < |lanes| ==>
              GraphMarginL(opts, lanes, font) >= opts.marginLeft + font.textWidth(lanes[i].caption)
  {
    var ws := seq(|lanes|, i requires 0 <= i < |lanes| => font.textWidth(lanes[i].caption));
    assert forall i :: 0 <= i < |lanes| ==> ws[i] == font.textWidth(lanes[i].caption);
  }

  /** One position per axis tick, in axis order, with the tick's formatted
      label and mark; position i lies i column widths right of `graphMarginL`. */
  lemma CalcXColumns(opts: GraphOptions, xaxis: seq<XAxisData>, lanes: seq<GraphSwimlaneData>,
                     boundsWidth: real, font: Font)
    ensures var xc := CalcX(opts, xaxis, lanes, boundsWidth, font);
            var between := WidthBetween(opts, |xaxis|, lanes, boundsWidth, font);
            && |xc.positions| == |xaxis|
            && xc.graphMarginL == opts.marginLeft + MaxSwimlaneLabelWidth(lanes, font)
            && (forall i :: 0 <= i < |xaxis| ==>
                  && xc.positions[i].x == xc.graphMarginL + i as real * between
                  && xc.positions[i].hasMark == HasMark(i, |xaxis|)
                  && xc.positions[i].caption == opts.xAxisFormatter(xaxis[i].data))
  {
  }

  /** Consecutive columns are `widthBetween` apart, and one more step after
      the last column reaches the right margin exactly. */
  lemma CalcXSpacing(opts: GraphOptions, xaxis: seq<XAxisData>, lanes: seq<GraphSwimlaneData>,
                     boundsWidth: real, font: Font)
    ensures var xc := CalcX(opts, xaxis, lanes, boundsWidth, font);
            var between := WidthBetween(opts, |xaxis|, lanes, boundsWidth, font);
            && (forall i :: 0 <= i < |xaxis| - 1 ==> xc.positions[i + 1].x - xc.positions[i].x == between)
            && (|xaxis| > 0 ==> xc.positions[|xaxis| - 1].x + between == boundsWidth - opts.marginRight)
  {
    var xc := CalcX(opts, xaxis, lanes, boundsWidth, font);
    var n := |xaxis|;
    var between := WidthBetween(opts, n, lanes, boundsWidth, font);
    CalcXColumns(opts, xaxis, lanes, boundsWidth, font);
    EvenlySpaced(xc.positions, xc.graphMarginL, between);
    if n > 0 {
      var avail := boundsWidth - (xc.graphMarginL + opts.marginRight);
      LastColumnReachesEnd(xc.positions, xc.graphMarginL, between, avail);
    }
  }

  /** Positions `start + i * step` are `step` apart. */
  lemma EvenlySpaced(xs: seq<XPosition>, start: real, step: real)
    requires forall i :: 0 <= i < |xs| ==> xs[i].x == start + i as real * step
    ensures forall i :: 0 <= i < |xs| - 1 ==> xs[i + 1].x - xs[i].x == step
  {
    forall i | 0 <= i < |xs| - 1
      ensures xs[i + 1].x - xs[i].x == step
    {
      assert (i + 1) as real * step == i as real * step + step;
    }
  }

  /** With `n` positions spaced by `avail / n`, one more step after the last
      one covers `avail` from the start. */
  lemma LastColumnReachesEnd(xs: seq<XPosition>, start: real, step: real, avail: real)
    requires |xs| > 0 && step == avail / |xs| as real
    requires forall i :: 0 <= i < |xs| ==> xs[i].x == start + i as real * step
    ensures xs[|xs| - 1].x + step == start + avail
  {
    var n := |xs|;
    assert step * n as real == avail;
    assert (n - 1) as real * step + step == n as real * step;
  }

  /** Positions `start + i * step` with a positive step increase with `i`. */
  lemma SpacedIncreasing(xs: seq<XPosition>, start: real, step: real, i: nat, j: nat)
    requires forall k :: 0 <= k < |xs| ==> xs[k].x == start + k as real * step
    requires 0.0 < step && i < j < |xs|
    ensures xs[i].x < xs[j].x
  {
    assert j as real * step == i as real * step + (j - i) as real * step;
    assert (j - i) as real * step > 0.0;
  }

  /** When the columns fit between the margins, positions strictly increase. */
  lemma CalcXIncreasing(opts: GraphOptions, xaxis: seq<XAxisData>, lanes: seq<GraphSwimlaneData>,
                        boundsWidth: real, font: Font, i: nat, j: nat)
    requires i < j < |xaxis|
    requires boundsWidth > GraphMarginL(opts, lanes, font) + opts.marginRight
    ensures var xc := CalcX(opts, xaxis, lanes, boundsWidth, font);
            xc.positions[i].x < xc.positions[j].x
  {
    var xc := CalcX(opts, xaxis, lanes, boundsWidth, font);
    var n := |xaxis|;
    var between := WidthBetween(opts, n, lanes, boundsWidth, font);
    QuotientPositive(boundsWidth - (GraphMarginL(opts, lanes, font) + opts.marginRight), n);
    CalcXColumns(opts, xaxis, lanes, boundsWidth, font);
    SpacedIncreasing(xc.positions, xc.graphMarginL, between, i, j);
  }

  lemma QuotientPositive(a: real, n: nat)
    requires 0.0 < a && n > 0
    ensures a / n as real > 0.0
  {
  }

  /** For a natural count, `Math.round(n / 3)` is `(n + 1)` divided by 3,
      rounded down. */
  lemma SplitIsThirdRounded(n: nat)
    ensures Split(n) == (n + 1) / 3
  {
    var q := (n + 1) / 3;
    var t := (n + 1) % 3;
    assert n + 1 == 3 * q + t && 0 <= t < 3;
    var x := n as real / 3.0;
    assert x + 0.5 == q as real + (2 * t + 1) as real / 6.0;
    assert q as real <= x + 0.5 < (q + 1) as real;
  }

  /** The last column is always marked, and the first one is too. */
  lemma EndsAreMarked(n: nat)
    requires 0 < n
    ensures HasMark(0, n) && HasMark(n - 1, n)
  {
    SplitIsThirdRounded(n);
  }

  /** Nine columns are labelled at exactly 0, 3, 6 and 8. */
  lemma NineColumnMarks()
    ensures forall i :: 0 <= i < 9 ==> (HasMark(i, 9) <==> i == 0 || i == 3 || i == 6 || i == 8)
  {
    SplitIsThirdRounded(9);
  }

  /** A single column has a split of 0 and is marked only as the last one. */
  lemma SingleColumnMark()
    ensures Split(1) == 0 && HasMark(0, 1)
  {
    SplitIsThirdRounded(1);
  }

  /** At most four columns are labelled whatever the axis length: a marked
      column is the first, the last, or one or two splits in. */
  lemma {:induction false} AtMostFourMarks(n: nat, i: nat)
    requires i < n && HasMark(i, n)
    ensures i == 0 || i == Split(n) || i == 2 * Split(n) || i == n - 1
  {
    SplitIsThirdRounded(n);
    var s := Split(n);
    if i != n - 1 {
      assert s > 0 && i % s == 0;
      var k := i / s;
      assert i == k * s;
      assert 3 * s >= n - 1;
    }
  }

  // ---------------------------------------------------------------- Y side

  /** `marginBWithSwimlanes`: the gap below the plot, one row per swimlane,
      and the bottom margin. */
  function MarginBWithSwimlanes(opts: GraphOptions, laneCount: nat): real
  {
    opts.spaceGraphSwimlanes + laneCount as real * opts.swimlaneHeight + opts.marginBottom
  }

  /** `availableHeightForGraph`. */
  function AvailableHeight(opts: GraphOptions, laneCount: nat, canvasHeight: real): real
  {
    canvasHeight - opts.marginTop - MarginBWithSwimlanes(opts, laneCount)
  }

  function Values(data: seq<GraphData>): seq<real>
  {
    seq(|data|, i requires 0 <= i < |data| => data[i].value)
  }

  /** `maxValue`: the largest of 0 and every series value. */
  function MaxValue(data: seq<GraphData>): (m: real)
    ensures 0.0 <= m
    ensures forall i :: 0 <= i < |data| ==> data[i].value <= m
    ensures m == 0.0 || exists i :: 0 <= i < |data| && m == data[i].value
  {
    var vs := Values(data);
    assert forall i :: 0 <= i < |data| ==> vs[i] == data[i].value;
    MaxReduce(0.0, vs)
  }

  /** `graphMaxValue = Math.round(maxValue)`. */
  function GraphMaxValue(data: seq<GraphData>): int
  {
    Round(MaxValue(data))
  }

  /** `middleLine`: half the plot height, rounded, below the top margin. */
  function MiddleLine(opts: GraphOptions, laneCount: nat, canvasHeight: real): real
  {
    var top := opts.marginTop;
    var bottom := opts.marginTop + AvailableHeight(opts, laneCount, canvasHeight);
    Round((bottom - top) / 2.0) as real + opts.marginTop
  }

  /** `calcY`. `graphMaxValue` must be non-zero: the source divides by it. */
  function CalcY(opts: GraphOptions, lanes: seq<GraphSwimlaneData>, canvasHeight: real,
                 data: seq<GraphData>, font: Font, show: real -> string): YCalc
    requires GraphMaxValue(data) > 0
  {
    var laneCount := |lanes|;
    var marginB := MarginBWithSwimlanes(opts, laneCount);
    var avail := AvailableHeight(opts, laneCount, canvasHeight);
    var maxValue := MaxValue(data);
    var lineLabels := [show(maxValue), show(maxValue / 2.0), show(0.0)];
    YCalc(
      avail / GraphMaxValue(data) as real,
      marginB,
      MaxReduce(0.0, [font.textWidth(lineLabels[0]), font.textWidth(lineLabels[1]), font.textWidth(lineLabels[2])]),
      lineLabels,
      [opts.marginTop, MiddleLine(opts, laneCount, canvasHeight), opts.marginTop + avail],
      seq(laneCount, i requires 0 <= i < laneCount =>
            canvasHeight - marginB + opts.spaceGraphSwimlanes + opts.swimlaneHeight * i as real))
  }

  /** Three gridlines: the top margin, the middle, and the bottom of the
      plot, which lies `marginBWithSwimlanes` above the canvas bottom; the
      label column is as wide as the widest of the three labels. */
  lemma CalcYGridlines(opts: GraphOptions, lanes: seq<GraphSwimlaneData>, canvasHeight: real,
                       data: seq<GraphData>, font: Font, show: real -> string)
    requires GraphMaxValue(data) > 0
    ensures var yc := CalcY(opts, lanes, canvasHeight, data, font, show);
            && |yc.graphLines| == 3 && |yc.lineLabels| == 3
            && yc.graphLines[0] == opts.marginTop
            && yc.graphLines[2] == canvasHeight - yc.marginBWithSwimlanes
            && yc.graphLines[2] - yc.graphLines[0] == AvailableHeight(opts, |lanes|, canvasHeight)
            && yc.lineLabels == [show(MaxValue(data)), show(MaxValue(data) / 2.0), show(0.0)]
            && (forall k :: 0 <= k < 3 ==> font.textWidth(yc.lineLabels[k]) <= yc.maxLineLabelsWidth)
  {
    var yc := CalcY(opts, lanes, canvasHeight, data, font, show);
    var ws := [font.textWidth(yc.lineLabels[0]), font.textWidth(yc.lineLabels[1]), font.textWidth(yc.lineLabels[2])];
    assert forall k :: 0 <= k < 3 ==> ws[k] == font.textWidth(yc.lineLabels[k]);
  }

  /** When the plot has room, the middle gridline lies between the top and
      bottom ones, within half a pixel of halfway. */
  lemma MiddleLineBetween(opts: GraphOptions, lanes: seq<GraphSwimlaneData>, canvasHeight: real,
                          data: seq<GraphData>, font: Font, show: real -> string)
    requires GraphMaxValue(data) > 0
    requires 0.0 <= AvailableHeight(opts, |lanes|, canvasHeight)
    ensures var lines := CalcY(opts, lanes, canvasHeight, data, font, show).graphLines;
            && lines[0] <= lines[1] <= lines[2]
            && -0.5 < lines[1] - (lines[0] + lines[2]) / 2.0 <= 0.5
  {
    var yc := CalcY(opts, lanes, canvasHeight, data, font, show);
    var avail := AvailableHeight(opts, |lanes|, canvasHeight);
    assert yc.graphLines[1] == Round(avail / 2.0) as real + opts.marginTop;
    RoundedHalf(avail);
  }

  lemma RoundedHalf(a: real)
    requires 0.0 <= a
    ensures 0.0 <= Round(a / 2.0) as real <= a
    ensures -0.5 < Round(a / 2.0) as real - a / 2.0 <= 0.5
  {
    var r := Round(a / 2.0);
    if a < 1.0 {
      assert r == 0;
    }
  }

  /** One row per swimlane, `swimlaneHeight` apart; the first starts
      `spaceGraphSwimlanes` below the bottom gridline and the last ends at the
      bottom margin. */
  lemma CalcYRows(opts: GraphOptions, lanes: seq<GraphSwimlaneData>, canvasHeight: real,
                  data: seq<GraphData>, font: Font, show: real -> string)
    requires GraphMaxValue(data) > 0
    ensures var yc := CalcY(opts, lanes, canvasHeight, data, font, show);
            && |yc.swimLanes| == |lanes|
            && (forall i :: 0 <= i < |lanes| - 1 ==> yc.swimLanes[i + 1] - yc.swimLanes[i] == opts.swimlaneHeight)
            && (|lanes| > 0 ==> yc.swimLanes[0] == yc.graphLines[2] + opts.spaceGraphSwimlanes)
            && (|lanes| > 0 ==> yc.swimLanes[|lanes| - 1] + opts.swimlaneHeight == canvasHeight - opts.marginBottom)
  {
    var yc := CalcY(opts, lanes, canvasHeight, data, font, show);
    var n := |lanes|;
    forall i | 0 <= i < n - 1
      ensures yc.swimLanes[i + 1] - yc.swimLanes[i] == opts.swimlaneHeight
    {
      assert opts.swimlaneHeight * (i + 1) as real == opts.swimlaneHeight * i as real + opts.swimlaneHeight;
    }
    if n > 0 {
      assert opts.swimlaneHeight * (n - 1) as real + opts.swimlaneHeight == n as real * opts.swimlaneHeight;
    }
  }

  /** `graphMaxValue` is positive exactly when the largest value is at least
      one half. */
  lemma GraphMaxValuePositive(data: seq<GraphData>)
    ensures GraphMaxValue(data) > 0 <==> MaxValue(data) >= 0.5
  {
  }
}
