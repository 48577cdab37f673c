/** The drawing vocabulary shared by every chart primitive: the p5 calls that
    place something on the canvas, recorded as values, plus the few JavaScript
    number helpers (Math.round, a Math.max reduction) the layout relies on.
    Styling calls (fill, stroke, strokeWeight, textSize, textFont) are not
    recorded: they decide colours, not geometry. */
module Canvas {

  datatype Option<T> = None | Some(value: T)

  /** A canvas position in pixels. */
  datatype Point = Point(x: real, y: real)

  /** p5's horizontal text anchors LEFT, CENTER and RIGHT. */
  datatype HAlign = Left | Center | Right

  /** p5's vertical text anchors TOP and CENTER. */
  datatype VAlign = Top | Middle

  /** One geometry-bearing p5 call. `RectNaN` is a `rect` call one of whose
      arguments is `undefined` or NaN (p5 paints nothing for it). */
  datatype Cmd =
    | Background
    | Rect(x: real, y: real, w: real, h: real)
    | RectNaN
    | Ellipse(cx: real, cy: real, d: real)
    | Segment(x1: real, y1: real, x2: real, y2: real)
    | TextAlign(horizontal: HAlign, vertical: VAlign)
    | Text(s: string, tx: real, ty: real)
    | Polygon(vertices: seq<Point>)

  /** p5's font metrics at the current text size, left uninterpreted. */
  datatype Font = Font(textWidth: string -> real, ascent: real, descent: real)

  function Max(a: real, b: real): real { if a < b then b else a }

  /** JavaScript's `Math.round`: the nearest integer, halves rounded up. */
  function Round(x: real): (r: int)
    ensures r as real - 0.5 <= x < r as real + 0.5
  {
    (x + 0.5).Floor
  }

  /** `xs.reduce((a, b) => Math.max(a, b), init)`: the largest of `init` and
      every element, folded left to right. */
  function MaxReduce(init: real, xs: seq<real>): (r: real)
    ensures init <= r
    ensures forall i :: 0 <= i < |xs| ==> xs[i] <= r
    ensures r == init || exists i :: 0 <= i < |xs| && r == xs[i]
    decreases |xs|
  {
    if xs == [] then init
    else
      var r := MaxReduce(Max(init, xs[0]), xs[1..]);
      assert forall i :: 1 <= i < |xs| ==> xs[i] == xs[1..][i - 1];
      r
  }

  /** The hover test of circles and squares:
      `sqrt(sq(cx - px) + sq(cy - py)) < mouseD / 2`, stated without the
      square root. A square root is never negative, so a radius of zero or
      less is never hovered. */
  predicate WithinRadius(cx: real, cy: real, mouseD: real, px: real, py: real)
  {
    var dx, dy, r := cx - px, cy - py, mouseD / 2.0;
    0.0 < r && dx * dx + dy * dy < r * r
  }

  /** The root-free test agrees with comparing the Euclidean distance `dist`
      (the non-negative root of the squared offset) against half of `mouseD`. */
  lemma WithinRadiusIsDistance(cx: real, cy: real, mouseD: real, px: real, py: real, dist: real)
    requires 0.0 <= dist
    requires dist * dist == (cx - px) * (cx - px) + (cy - py) * (cy - py)
    ensures WithinRadius(cx, cy, mouseD, px, py) <==> dist < mouseD / 2.0
  {
    var r := mouseD / 2.0;
    if 0.0 < r {
      assert (dist - r) * (dist + r) == dist * dist - r * r;
      if dist < r {
        assert dist * dist < r * r by {
          assert dist + r > 0.0;
          assert (dist - r) * (dist + r) < 0.0;
        }
      } else {
        assert dist * dist >= r * r by {
          assert dist + r > 0.0;
          assert (dist - r) * (dist + r) >= 0.0;
        }
      }
    }
  }

  /** The callout of a hovered, labelled circle, square or block: a rounded
      box sized to the caption's text, centred horizontally on the pointer, then
      the caption itself, centred, 10 pixels above the pointer. */
  function Callout(caption: string, px: real, py: real, font: Font): (cmds: seq<Cmd>)
    ensures |cmds| == 3 && cmds[0].Rect?
    ensures cmds[0].w == font.textWidth(caption) + 10.0
    ensures cmds[0].x + cmds[0].w / 2.0 == px
    ensures cmds[0].y == py - font.ascent - 10.0
    ensures cmds[0].h == font.ascent + font.descent + 5.0
    ensures cmds[1] == TextAlign(Center, Middle) && cmds[2] == Text(caption, px, py - 10.0)
  {
    var width := font.textWidth(caption);
    [ Rect(px - (width + 10.0) / 2.0, py - font.ascent - 10.0, width + 10.0, font.ascent + font.descent + 5.0),
      TextAlign(Center, Middle),
      Text(caption, px, py - 10.0) ]
  }

  /** A point strictly inside a rectangle command. */
  predicate StrictlyInside(r: Cmd, px: real, py: real)
    requires r.Rect?
  {
    r.x < px < r.x + r.w && r.y < py < r.y + r.h
  }

  /** For ordinary metrics (a non-negative width and ascent, a descent above
      -5) the callout box contains the anchor its text is drawn at. */
  lemma CalloutHoldsItsText(caption: string, px: real, py: real, font: Font)
    requires 0.0 <= font.textWidth(caption) && 0.0 <= font.ascent && -5.0 < font.descent
    ensures var cmds := Callout(caption, px, py, font);
            && cmds[0].x < cmds[2].tx < cmds[0].x + cmds[0].w
            && cmds[0].y <= cmds[2].ty < cmds[0].y + cmds[0].h
  {
  }

  /** `layer` is painted as the commands of `f` from index `start` on. */
  ghost predicate Occupies<T>(f: seq<T>, start: int, layer: seq<T>)
  {
    0 <= start <= start + |layer| <= |f| && f[start..start + |layer|] == layer
  }

  /** Layers painted one after the other, bottom first. */
  function Concat<T>(layers: seq<seq<T>>): seq<T>
    decreases |layers|
  {
    if layers == [] then [] else Concat(layers[..|layers| - 1]) + layers[|layers| - 1]
  }

  /** Each layer occupies the commands that follow all the layers below it. */
  lemma {:induction false} ConcatOccupies<T>(layers: seq<seq<T>>, i: int)
    requires 0 <= i < |layers|
    ensures Occupies(Concat(layers), |Concat(layers[..i])|, layers[i])
    decreases |layers|
  {
    var below := layers[..|layers| - 1];
    if i == |layers| - 1 {
      assert below == layers[..i];
      assert Concat(layers)[|Concat(below)|..] == layers[i];
    } else {
      ConcatOccupies(below, i);
      assert below[..i] == layers[..i];
      var s := |Concat(layers[..i])|;
      assert Concat(layers)[s..s + |layers[i]|] == Concat(below)[s..s + |layers[i]|];
    }
  }

  /** Nine layers in a row are their concatenation. */
  lemma ConcatNine<T>(l0: seq<T>, l1: seq<T>, l2: seq<T>, l3: seq<T>, l4: seq<T>,
                      l5: seq<T>, l6: seq<T>, l7: seq<T>, l8: seq<T>)
    ensures Concat([l0, l1, l2, l3, l4, l5, l6, l7, l8]) == l0 + l1 + l2 + l3 + l4 + l5 + l6 + l7 + l8
  {
    var ls := [l0, l1, l2, l3, l4, l5, l6, l7, l8];
    assert ls[..0] == [];
    ConcatStep(ls, 0);
    ConcatStep(ls, 1);
    ConcatStep(ls, 2);
    ConcatStep(ls, 3);
    ConcatStep(ls, 4);
    ConcatStep(ls, 5);
    ConcatStep(ls, 6);
    ConcatStep(ls, 7);
    ConcatStep(ls, 8);
    assert ls[..9] == ls;
  }

  /** One more layer on top of the first `k`. */
  lemma ConcatStep<T>(ls: seq<seq<T>>, k: int)
    requires 0 <= k < |ls|
    ensures Concat(ls[..k + 1]) == Concat(ls[..k]) + ls[k]
  {
    assert ls[..k + 1][..k] == ls[..k];
  }
}
