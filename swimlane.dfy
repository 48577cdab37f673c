/** The annotation row of `swimlane.ts`. Its constructor turns the row's
    marker and interval records (already in pixels) into child shapes; its
    `draw` paints, for each child, a faint highlight strip from the top of
    the canvas down to the row and then the child itself, markers first. */
module Swimlanes {
  import opened Canvas
  import Circles

  /** A marker record: its pixel x and its caption. */
  datatype LaneCircleData = LaneCircleData(x: real, value: string)

  /** An interval record: the pixel x of its two ends and its caption. */
  datatype LaneBlockData = LaneBlockData(x1: real, x2: real, caption: string)

  /** `SwimlaneData`; absent lists are `None`. */
  datatype SwimlaneData = SwimlaneData(
    caption: string, x: real, y: real, height: real, marginX: real, d: real,
    circles: Option<seq<LaneCircleData>>, blocks: Option<seq<LaneBlockData>>)

  /** The record the constructor hands to `new Block`: `{x1, w, y, d, label,
      mouseD}`. `Block` reads `x`, `width`, `height` and `marginTop`, none of
      which this record carries, so in JavaScript they are all `undefined`. */
  datatype LaneBlock = LaneBlock(x1: real, w: real, y: real, d: real, caption: string, mouseD: real)

  datatype Swimlane = Swimlane(data: SwimlaneData, circles: seq<Circles.Circle>, blocks: seq<LaneBlock>)

  function LaneCircle(data: SwimlaneData, c: LaneCircleData): Circles.Circle
  {
    Circles.Circle(c.x, data.y + data.height / 2.0, data.d, data.d, c.value)
  }

  function LaneBlockOf(data: SwimlaneData, b: LaneBlockData): LaneBlock
  {
    LaneBlock(b.x1, b.x2 - b.x1, data.y, data.d, b.caption, data.d)
  }

  /** The constructor: one circle per marker record and one block per
      interval record, in order; an absent list gives no children. Each circle
      keeps its x, sits on the row's vertical centre and is `d` wide, with a
      hover diameter of `d`; each block starts at `x1` and is `x2 - x1` wide. */
  function New(data: SwimlaneData): (lane: Swimlane)
    ensures lane.data == data
    ensures data.circles.None? ==> lane.circles == []
    ensures data.circles.Some? ==> |lane.circles| == |data.circles.value|
    ensures forall k :: 0 <= k < |lane.circles| ==>
              && lane.circles[k].x == data.circles.value[k].x
              && lane.circles[k].y - data.y == data.y + data.height - lane.circles[k].y
              && lane.circles[k].d == lane.circles[k].mouseD == data.d
              && lane.circles[k].caption == data.circles.value[k].value
    ensures data.blocks.None? ==> lane.blocks == []
    ensures data.blocks.Some? ==> |lane.blocks| == |data.blocks.value|
    ensures forall k :: 0 <= k < |lane.blocks| ==>
              && lane.blocks[k].x1 == data.blocks.value[k].x1
              && lane.blocks[k].x1 + lane.blocks[k].w == data.blocks.value[k].x2
              && lane.blocks[k].y == data.y
              && lane.blocks[k].caption == data.blocks.value[k].caption
  {
    var circles :=
      match data.circles
      case None => []
      case Some(cs) => seq(|cs|, k requires 0 <= k < |cs| => LaneCircle(data, cs[k]));
    var blocks :=
      match data.blocks
      case None => []
      case Some(bs) => seq(|bs|, k requires 0 <= k < |bs| => LaneBlockOf(data, bs[k]));
    Swimlane(data, circles, blocks)
  }

  /** The highlight strip painted behind a marker: `d` wide, centred on the
      marker's x, from the top of the canvas to `y + d`. */
  function Strip(data: SwimlaneData, c: Circles.Circle): Cmd
  {
    Rect(c.x - data.d / 2.0, 0.0, data.d, data.y + data.d)
  }

  /** The markers' part of `draw`: strip, then the circle, for each marker. */
  function CircleCommands(data: SwimlaneData, cs: seq<Circles.Circle>): seq<Cmd>
    decreases |cs|
  {
    if cs == [] then [] else [Strip(data, cs[0])] + Circles.Draw(cs[0]) + CircleCommands(data, cs[1..])
  }

  /** The intervals' part of `draw`. The strip's height `getY() + d` reads the
      missing `marginTop` and is NaN, and the block's own `rect` reads only
      missing fields, so both calls are `RectNaN`; the block's hover test
      compares the pointer with `undefined`, which is false, so no callout. */
  function BlockCommands(bs: seq<LaneBlock>): seq<Cmd>
    decreases |bs|
  {
    if bs == [] then [] else [RectNaN, RectNaN] + BlockCommands(bs[1..])
  }

  /** `draw(x, y)`: every marker (strip, then shape) before any interval. The
      pointer reaches only the intervals' hover test, which never holds. */
  function Draw(lane: Swimlane, px: real, py: real): seq<Cmd>
  {
    CircleCommands(lane.data, lane.circles) + BlockCommands(lane.blocks)
  }

  /** `isMouseOver`: a row is never hovered. */
  function IsMouseOver(lane: Swimlane, px: real, py: real): (hovered: bool)
    ensures !hovered
  {
    false
  }

  lemma {:induction false} CircleCommandsAt(data: SwimlaneData, cs: seq<Circles.Circle>, k: nat)
    requires k < |cs|
    ensures |CircleCommands(data, cs)| == 2 * |cs|
    ensures CircleCommands(data, cs)[2 * k] == Strip(data, cs[k])
    ensures CircleCommands(data, cs)[2 * k + 1] == Ellipse(cs[k].x, cs[k].y, cs[k].d)
  {
    if k == 0 {
      if |cs| > 1 { CircleCommandsAt(data, cs[1..], 0); }
    } else {
      CircleCommandsAt(data, cs[1..], k - 1);
    }
  }

  lemma {:induction false} BlockCommandsAreNaN(bs: seq<LaneBlock>)
    ensures |BlockCommands(bs)| == 2 * |bs|
    ensures forall j :: 0 <= j < |BlockCommands(bs)| ==> BlockCommands(bs)[j] == RectNaN
  {
    if bs != [] { BlockCommandsAreNaN(bs[1..]); }
  }

  /** Marker k of a row built by the constructor gets commands 2k (its strip,
      spanning x - d/2 to x + d/2 and y = 0 to `data.y + d`) and 2k + 1 (its
      circle); every interval command comes after every marker command. */
  lemma DrawLayout(data: SwimlaneData, px: real, py: real)
    ensures var lane := New(data);
            var cmds := Draw(lane, px, py);
            && |cmds| == 2 * |lane.circles| + 2 * |lane.blocks|
            && (forall k :: 0 <= k < |lane.circles| ==>
                  && cmds[2 * k].Rect?
                  && cmds[2 * k].x == data.circles.value[k].x - data.d / 2.0
                  && cmds[2 * k].x + cmds[2 * k].w == data.circles.value[k].x + data.d / 2.0
                  && cmds[2 * k].y == 0.0 && cmds[2 * k].y + cmds[2 * k].h == data.y + data.d
                  && cmds[2 * k + 1] == Ellipse(data.circles.value[k].x, data.y + data.height / 2.0, data.d))
            && (forall j :: 2 * |lane.circles| <= j < |cmds| ==> cmds[j] == RectNaN)
  {
    var lane := New(data);
    var cc := CircleCommands(data, lane.circles);
    BlockCommandsAreNaN(lane.blocks);
    if lane.circles != [] { CircleCommandsAt(data, lane.circles, 0); }
    forall k | 0 <= k < |lane.circles|
      ensures cc[2 * k] == Strip(data, lane.circles[k])
      ensures cc[2 * k + 1] == Ellipse(lane.circles[k].x, lane.circles[k].y, lane.circles[k].d)
    {
      CircleCommandsAt(data, lane.circles, k);
    }
  }
}
