/** The time axis of `x-axis.ts`: a baseline across the columns, then a
    short tick and a label under every marked column, the first label
    anchored left, the last right and the others centred. */
module Axis {
  import opened Canvas
  import opened XCalcs

  /** `XAxisData` of `x-axis.ts`. */
  datatype XAxis = XAxis(marginX: real, marginB: real, xcalc: XCalc, textSize: real)

  /** The horizontal anchor of the label of column `index` out of `n`; a
      one-column axis anchors its only label left. */
  function LabelAlign(index: nat, n: nat): (a: HAlign)
    ensures a == Left <==> index == 0
    ensures a == Right <==> index != 0 && index == n - 1
    ensures a == Center <==> 0 < index && index != n - 1
  {
    if index == 0 then Left else if index == n - 1 then Right else Center
  }

  /** What one column contributes: nothing unless marked, otherwise a 5-pixel
      vertical tick below the baseline, the label anchor, and the label 8
      pixels below the baseline. */
  function TickCommands(e: XPosition, index: nat, n: nat, y: real): seq<Cmd>
  {
    if e.hasMark then [Segment(e.x, y, e.x, y + 5.0), TextAlign(LabelAlign(index, n), Top), Text(e.caption, e.x, y + 8.0)]
    else []
  }

  /** The columns' commands, in column order. */
  function Ticks(ps: seq<XPosition>, n: nat, y: real): seq<Cmd>
    decreases |ps|
  {
    if ps == [] then [] else Ticks(ps[..|ps| - 1], n, y) + TickCommands(ps[|ps| - 1], |ps| - 1, n, y)
  }

  /** The number of marked columns. */
  function MarkedCount(ps: seq<XPosition>): nat
    decreases |ps|
  {
    if ps == [] then 0 else MarkedCount(ps[..|ps| - 1]) + (if ps[|ps| - 1].hasMark then 1 else 0)
  }

  /** The baseline, from the first column to the last. */
  function Baseline(ps: seq<XPosition>, y: real): Cmd
    requires |ps| > 0
  {
    Segment(ps[0].x, y, ps[|ps| - 1].x, y)
  }

  /** Everything `draw` paints: the baseline at `canvasHeight - marginB`,
      then the columns. */
  function AxisCommands(axis: XAxis, canvasHeight: real): seq<Cmd>
    requires |axis.xcalc.positions| > 0
  {
    var ps := axis.xcalc.positions;
    var y := canvasHeight - axis.marginB;
    [Baseline(ps, y)] + Ticks(ps, |ps|, y)
  }

  /** `draw`. The source reads `positions.at(0).x`, which throws on an empty
      axis, so the positions must be non-empty. */
  method Draw(axis: XAxis, canvasHeight: real) returns (cmds: seq<Cmd>)
    requires |axis.xcalc.positions| > 0
    ensures cmds == AxisCommands(axis, canvasHeight)
  {
    var ps := axis.xcalc.positions;
    var y := canvasHeight - axis.marginB;
    cmds := [Segment(ps[0].x, y, ps[|ps| - 1].x, y)];
    for index := 0 to |ps|
      invariant cmds == [Baseline(ps, y)] + Ticks(ps[..index], |ps|, y)
    {
      assert ps[..index + 1][..index] == ps[..index];
      var element := ps[index];
      if element.hasMark {
        cmds := cmds + [Segment(element.x, y, element.x, y + 5.0)];
        var align := if index == 0 then Left else if index == |ps| - 1 then Right else Center;
        cmds := cmds + [TextAlign(align, Top)];
        cmds := cmds + [Text(element.caption, element.x, y + 8.0)];
      }
    }
    assert ps[..|ps|] == ps;
  }

  /** Three commands per marked column and nothing else. */
  lemma {:induction false} TicksLength(ps: seq<XPosition>, n: nat, y: real)
    ensures |Ticks(ps, n, y)| == 3 * MarkedCount(ps)
    decreases |ps|
  {
    if ps != [] { TicksLength(ps[..|ps| - 1], n, y); }
  }

  /** A marked column i owns the three commands that follow those of the
      marked columns before it: a vertical tick from y to y + 5 at its x, its
      label anchor, and its label at (x, y + 8). */
  lemma {:induction false} TicksAt(ps: seq<XPosition>, n: nat, y: real, i: nat)
    requires i < |ps| && ps[i].hasMark
    ensures var start := 3 * MarkedCount(ps[..i]);
            var t := Ticks(ps, n, y);
            && start + 3 <= |t|
            && t[start] == Segment(ps[i].x, y, ps[i].x, y + 5.0)
            && t[start + 1] == TextAlign(LabelAlign(i, n), Top)
            && t[start + 2] == Text(ps[i].caption, ps[i].x, y + 8.0)
    decreases |ps|
  {
    var last := |ps| - 1;
    var front := ps[..last];
    TicksLength(front, n, y);
    if i == last {
      assert front == ps[..i];
    } else {
      assert front[..i] == ps[..i];
      TicksAt(front, n, y, i);
    }
  }

  /** The baseline runs at `canvasHeight - marginB` between the first and
      last columns, and the labelled columns follow it. */
  lemma AxisCommandsShape(axis: XAxis, canvasHeight: real)
    requires |axis.xcalc.positions| > 0
    ensures var ps := axis.xcalc.positions;
            var cmds := AxisCommands(axis, canvasHeight);
            && |cmds| == 1 + 3 * MarkedCount(ps)
            && cmds[0] == Segment(ps[0].x, canvasHeight - axis.marginB, ps[|ps| - 1].x, canvasHeight - axis.marginB)
  {
    var ps := axis.xcalc.positions;
    TicksLength(ps, |ps|, canvasHeight - axis.marginB);
  }
}
