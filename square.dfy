/** The square marker of `square.ts`: a rounded square centred on its
    position, with a circular hover zone and a caption that is shown inside
    the square, or above the pointer in a callout while hovered. */
module Squares {
  import opened Canvas

  /** `SquareData` without its colours, corner radius and text size. */
  datatype Square = Square(x: real, y: real, d: real, mouseD: real, caption: string)

  /** `isMouseOver`: the pointer is strictly closer to the centre than
      `mouseD / 2` (the same test as a circle's). */
  predicate IsMouseOver(s: Square, px: real, py: real)
  {
    WithinRadius(s.x, s.y, s.mouseD, px, py)
  }

  /** `draw`: the square, then, for a non-empty caption, either the callout
      (hovered) or the caption centred on the square (not hovered). */
  function Draw(s: Square, px: real, py: real, font: Font): (cmds: seq<Cmd>)
    ensures 1 <= |cmds| && cmds[0].Rect?
    ensures cmds[0].w == s.d && cmds[0].h == s.d
    ensures cmds[0].x + cmds[0].w / 2.0 == s.x && cmds[0].y + cmds[0].h / 2.0 == s.y
    ensures |cmds| == 1 <==> s.caption == ""
    ensures s.caption != "" && IsMouseOver(s, px, py) ==> cmds[1..] == Callout(s.caption, px, py, font)
    ensures s.caption != "" && !IsMouseOver(s, px, py) ==>
              cmds[1..] == [TextAlign(Center, Middle), Text(s.caption, s.x, s.y)]
  {
    [Rect(s.x - s.d / 2.0, s.y - s.d / 2.0, s.d, s.d)] +
    if IsMouseOver(s, px, py) then
      (if s.caption != "" then Callout(s.caption, px, py, font) else [])
    else
      (if s.caption != "" then [TextAlign(Center, Middle), Text(s.caption, s.x, s.y)] else [])
  }

  /** Hovering holds exactly when the Euclidean distance `dist` from the
      centre to the pointer is below `mouseD / 2`. */
  lemma HoverIsDistance(s: Square, px: real, py: real, dist: real)
    requires 0.0 <= dist && dist * dist == (s.x - px) * (s.x - px) + (s.y - py) * (s.y - py)
    ensures IsMouseOver(s, px, py) <==> dist < s.mouseD / 2.0
  {
    WithinRadiusIsDistance(s.x, s.y, s.mouseD, px, py, dist);
  }

  /** The comparison is strict: a pointer exactly `mouseD / 2` from the
      centre is not hovering. */
  lemma BoundaryIsNotHover(s: Square, px: real, py: real)
    requires 0.0 <= s.mouseD
    requires (s.x - px) * (s.x - px) + (s.y - py) * (s.y - py) == (s.mouseD / 2.0) * (s.mouseD / 2.0)
    ensures !IsMouseOver(s, px, py)
  {
  }
}
