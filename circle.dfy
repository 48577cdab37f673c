/** The series and swimlane marker of `circle.ts`: a filled circle whose
    hover zone is a disk of diameter `mouseD` around its centre. */
module Circles {
  import opened Canvas

  /** `CircleData` without its text size, a styling value. */
  datatype Circle = Circle(x: real, y: real, d: real, mouseD: real, caption: string)

  /** `isMouseOver`: the pointer is strictly closer to the centre than
      `mouseD / 2`. */
  predicate IsMouseOver(c: Circle, px: real, py: real)
  {
    WithinRadius(c.x, c.y, c.mouseD, px, py)
  }

  /** `draw`: one circle of diameter `d` at the centre. It takes no pointer,
      so it is the same on every frame. */
  function Draw(c: Circle): (cmds: seq<Cmd>)
    ensures |cmds| == 1 && cmds[0].Ellipse?
    ensures Point(cmds[0].cx, cmds[0].cy) == Point(c.x, c.y) && cmds[0].d == c.d
  {
    [Ellipse(c.x, c.y, c.d)]
  }

  /** `drawLabel`: the callout, and only when the pointer hovers the circle
      and the caption is not empty. */
  function DrawLabel(c: Circle, px: real, py: real, font: Font): (cmds: seq<Cmd>)
    ensures cmds != [] <==> IsMouseOver(c, px, py) && c.caption != ""
    ensures cmds != [] ==> cmds == Callout(c.caption, px, py, font)
  {
    if IsMouseOver(c, px, py) && c.caption != "" then Callout(c.caption, px, py, font) else []
  }

  /** Hovering holds exactly when the Euclidean distance `dist` from the
      centre to the pointer is below `mouseD / 2`. */
  lemma HoverIsDistance(c: Circle, px: real, py: real, dist: real)
    requires 0.0 <= dist && dist * dist == (c.x - px) * (c.x - px) + (c.y - py) * (c.y - py)
    ensures IsMouseOver(c, px, py) <==> dist < c.mouseD / 2.0
  {
    WithinRadiusIsDistance(c.x, c.y, c.mouseD, px, py, dist);
  }

  /** Hovering depends only on the offset between centre and pointer: moving
      both by the same amount, or swapping them, changes nothing. */
  lemma HoverDependsOnOffsetOnly(c: Circle, px: real, py: real, tx: real, ty: real)
    ensures IsMouseOver(c.(x := c.x + tx, y := c.y + ty), px + tx, py + ty) == IsMouseOver(c, px, py)
    ensures IsMouseOver(c.(x := px, y := py), c.x, c.y) == IsMouseOver(c, px, py)
  {
  }

  /** One pixel inside the hover radius is hovering, one pixel outside is
      not (for a hover diameter above 2). */
  lemma HoverEdgeSamples(c: Circle)
    requires 2.0 < c.mouseD
    ensures IsMouseOver(c, c.x + c.mouseD / 2.0 - 1.0, c.y)
    ensures !IsMouseOver(c, c.x + c.mouseD / 2.0 + 1.0, c.y)
  {
  }
}
