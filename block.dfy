/** The interval bar of `block.ts`: a rounded rectangle, shifted down by a
    top margin, hovered while the pointer is strictly inside it. */
module Blocks {
  import opened Canvas

  /** `BlockData` without its colours, corner radius and text size. */
  datatype Block = Block(x: real, width: real, y: real, height: real, marginTop: real,
                         mouseD: real, caption: string)

  /** `getY`: the top edge of the drawn rectangle. */
  function GetY(b: Block): (top: real)
    ensures top - b.marginTop == b.y
  {
    b.y + b.marginTop
  }

  /** `isMouseOver`: strict containment in `(x, x + width) × (getY, getY + height)`. */
  predicate IsMouseOver(b: Block, px: real, py: real)
  {
    px > b.x && px < b.x + b.width && py > GetY(b) && py < GetY(b) + b.height
  }

  /** `draw`: the rectangle, then the callout when hovered and labelled. */
  function Draw(b: Block, px: real, py: real, font: Font): (cmds: seq<Cmd>)
    ensures 1 <= |cmds| && cmds[0] == Rect(b.x, GetY(b), b.width, b.height)
    ensures |cmds| > 1 <==> IsMouseOver(b, px, py) && b.caption != ""
    ensures |cmds| > 1 ==> cmds[1..] == Callout(b.caption, px, py, font)
  {
    [Rect(b.x, GetY(b), b.width, b.height)] +
    if IsMouseOver(b, px, py) && b.caption != "" then Callout(b.caption, px, py, font) else []
  }

  /** The hover region is exactly the interior of the rectangle `draw` paints. */
  lemma HoverIsDrawnInterior(b: Block, px: real, py: real, font: Font)
    ensures IsMouseOver(b, px, py) <==> StrictlyInside(Draw(b, px, py, font)[0], px, py)
  {
  }

  /** Points on the rectangle's edges are not hovering. */
  lemma EdgesAreNotHover(b: Block, px: real, py: real)
    requires px == b.x || px == b.x + b.width || py == GetY(b) || py == GetY(b) + b.height
    ensures !IsMouseOver(b, px, py)
  {
  }
}
