# Timeline chart layout and hit-testing, in Dafny

This project models the drawing core of the timeline chart widget
(`src/components/graph-component/draw/`). That core covers:

- the layout calculator (`calcX`, `calcY`), which turns the container width, the canvas height, the axis ticks, the swimlane captions and the series values into pixel positions;
- the chart object `Graph`, which builds the series circles, the series lines, the swimlanes and the axis from that layout, decides on every animation tick whether to repaint, reverses its swimlane list in place and paints the frame;
- the primitives: circle, square, block, swimlane and axis, with their hover tests and the commands they paint.

Pixels are `real`. A p5 drawing call that places something becomes a `Cmd` value, and a `draw` returns the sequence of commands it issues. The font metrics (`textWidth`, `textAscent`, `textDescent`), `Number.prototype.toString` and the axis label formatter are uninterpreted parameters. `Math.round` is written out as `floor(x + 0.5)`. The source field `label` is called `caption` throughout, because `label` is a Dafny keyword.

Files and modules:

| file | module | models |
|---|---|---|
| canvas.dfy | `Canvas` | command vocabulary, `Math.round`, the `Math.max` fold, the radius hover test, the hover callout |
| xcalc.dfy | `XCalcs` | the `XCalc` and `YCalc` records |
| circle.dfy, square.dfy, block.dfy | `Circles`, `Squares`, `Blocks` | the three shapes |
| swimlane.dfy | `Swimlanes` | the row: child construction and strip painting |
| x_axis.dfy | `Axis` | the time axis, with `draw` as a loop method |
| layout.dfy | `Layout` | `calcX` and `calcY` |
| graph_layout.dfy | `GraphLayout` | the value-level part of `graph.ts`: id lookup, fills, overlay, redraw rule, paint order, and `LaidOut`, the relation between a state and its layout |
| graph.dfy | `Graphs` | the `Graph` class: fields, `calcAndFill`, `resize`, `isRedrawRequired`, `draw` |

The behaviour of the code is modelled as written, including these details:

- **Markers never reach the swimlane.** `fillSwimlanes` passes a lane's markers under the key `squares`, but `Swimlane` reads `circles`. So a swimlane built by the chart has no marker circles (`GraphLayout.FilledSwimlanes`). `Swimlanes.New` still models the marker path for a record that has one.
- **Intervals are painted with undefined geometry.** `Swimlane` builds each `Block` from `{x1, w, y, d, label, mouseD}`, but `Block` reads `x`, `width`, `height` and `marginTop`. Every interval therefore paints two `rect` calls with `undefined` or NaN arguments (`RectNaN`) and is never hovered (`Swimlanes.BlockCommandsAreNaN`).
- **No default axis.** The constructor builds a fallback axis from the series ids when none is given, then discards it, so a missing axis stays missing (`GraphLayout.ResolveAxis`, `Graphs.Graph.constructor`).
- **Resize uses the old height.** `resize` recomputes the layout before it resizes the canvas, so the layout uses the new container width but the old canvas height (`Graphs.Graph.Resize`, `GraphLayout.LayoutFollowsHeight`). Resizing twice to the same size therefore does not give the same layout: when the canvas height changes, the first call lays out for the old height and the second for the new one.
- **Swimlane order flips on every repaint.** `draw` reverses `swimlanes` in place on every repaint, so the lanes alternate between their built order and its reverse (`Graphs.DrawKeepsLayout`, `GraphLayout.ReversedTwice`). The lanes therefore do not keep one fixed reverse order: every second repaint paints them in their built order.
- **No series hover callout.** The chart paints its series circles with `Circle.draw`, which ignores the pointer. A hovered series circle therefore never shows a callout: `Circles.DrawLabel` models the callout, but the chart never paints it.

## Model

| member | source | states |
|---|---|---|
| Canvas.Round | src/components/graph-component/draw/graph.ts:124 | `Math.round` gives the integer within half a unit below or at most half above `x` |
| Canvas.MaxReduce | src/components/graph-component/draw/graph.ts:120 | the `Math.max` fold is at least its seed and every element, and equals the seed or one of the elements |
| Canvas.WithinRadiusIsDistance | src/components/graph-component/draw/circle.ts:48-56 | the root-free hover test holds exactly when the Euclidean distance is below `mouseD / 2` |
| Canvas.Callout | src/components/graph-component/draw/circle.ts:36-43 | the callout box is `textWidth + 10` wide, centred on the pointer x, its top `ascent + 10` above the pointer, `ascent + descent + 5` high; the caption is centred at (pointer x, pointer y - 10) |
| Canvas.CalloutHoldsItsText | src/components/graph-component/draw/circle.ts:38-43 | for ordinary metrics the callout box contains the point its caption is drawn at |
| Circles.Draw | src/components/graph-component/draw/circle.ts:21-26 | one ellipse at the centre with diameter `d`, whatever the pointer |
| Circles.DrawLabel | src/components/graph-component/draw/circle.ts:28-46 | commands exist exactly when the circle is hovered and has a non-empty caption, and then they are the callout |
| Circles.HoverIsDistance | src/components/graph-component/draw/circle.ts:48-56 | hovered iff the distance from centre to pointer is strictly below `mouseD / 2` |
| Circles.HoverDependsOnOffsetOnly | src/components/graph-component/draw/circle.ts:49-51 | hovering is unchanged when centre and pointer move together, and when they swap |
| Circles.HoverEdgeSamples | src/components/graph-component/draw/circle.ts:51 | one pixel inside the radius hovers, one pixel outside does not |
| Squares.Draw | src/components/graph-component/draw/square.ts:24-59 | the square is `d` wide and centred on (x, y); an empty caption adds nothing; otherwise the callout when hovered, else the caption centred on the square |
| Squares.HoverIsDistance | src/components/graph-component/draw/square.ts:61-69 | hovered iff the distance from centre to pointer is strictly below `mouseD / 2` |
| Squares.BoundaryIsNotHover | src/components/graph-component/draw/square.ts:64 | a pointer exactly `mouseD / 2` away is not hovering |
| Blocks.GetY | src/components/graph-component/draw/block.ts:52-54 | the top edge is `y` shifted down by `marginTop` |
| Blocks.Draw | src/components/graph-component/draw/block.ts:26-50 | the rectangle at (x, getY) of size width by height, followed by the callout exactly when hovered and captioned |
| Blocks.HoverIsDrawnInterior | src/components/graph-component/draw/block.ts:56-59 | hovered iff the pointer is strictly inside the rectangle `draw` paints |
| Blocks.EdgesAreNotHover | src/components/graph-component/draw/block.ts:57 | points on any of the four edges are not hovering |
| Swimlanes.New | src/components/graph-component/draw/swimlane.ts:30-58 | one circle per marker record (same x, on the row's vertical centre, `d` wide with hover diameter `d`, captioned by its value) and one block per interval (from `x1`, `x2 - x1` wide, on the row), in order; an absent list gives none |
| Swimlanes.IsMouseOver | src/components/graph-component/draw/swimlane.ts:83-85 | a row is never hovered |
| Swimlanes.CircleCommandsAt | src/components/graph-component/draw/swimlane.ts:64-71 | marker k paints its strip at command 2k and its circle at 2k + 1 |
| Swimlanes.BlockCommandsAreNaN | src/components/graph-component/draw/swimlane.ts:73-80 | every interval paints two `rect` calls with undefined geometry |
| Swimlanes.DrawLayout | src/components/graph-component/draw/swimlane.ts:60-81 | for a constructed row: marker k's strip spans x - d/2 to x + d/2 and y = 0 to `data.y + d`, its circle follows it, and all interval commands come after all marker commands |
| Axis.LabelAlign | src/components/graph-component/draw/x-axis.ts:35-41 | left exactly for the first column, right exactly for a later last column, centred otherwise |
| Axis.Draw | src/components/graph-component/draw/x-axis.ts:21-49 | the loop paints the baseline and then each column's commands, in column order |
| Axis.TicksLength | src/components/graph-component/draw/x-axis.ts:28-48 | three commands per marked column and none for an unmarked one |
| Axis.TicksAt | src/components/graph-component/draw/x-axis.ts:28-47 | a marked column's commands are a tick from y to y + 5 at its x, its anchor, and its label at (x, y + 8) |
| Axis.AxisCommandsShape | src/components/graph-component/draw/x-axis.ts:22-26 | the baseline runs at `canvasHeight - marginB` from the first column to the last |
| Layout.MarginCoversCaptions | src/components/graph-component/draw/graph.ts:120-121 | `graphMarginL` is at least the left margin plus every caption's width |
| Layout.CalcXColumns | src/components/graph-component/draw/graph.ts:118-132 | one position per axis tick, in order: x = `graphMarginL + i * widthBetween`, the marking rule, the formatted label |
| Layout.CalcXSpacing | src/components/graph-component/draw/graph.ts:123-128 | consecutive columns are `widthBetween` apart, and one more step after the last reaches the right margin |
| Layout.EvenlySpaced | src/components/graph-component/draw/graph.ts:128 | positions `start + i * step` are `step` apart |
| Layout.LastColumnReachesEnd | src/components/graph-component/draw/graph.ts:123-128 | with `n` columns spaced by `avail / n`, the last column plus one step is `avail` from the start |
| Layout.SpacedIncreasing | src/components/graph-component/draw/graph.ts:128 | with a positive step, positions increase with the index |
| Layout.CalcXIncreasing | src/components/graph-component/draw/graph.ts:123-128 | when the columns fit between the margins, x strictly increases along the axis |
| Layout.SplitIsThirdRounded | src/components/graph-component/draw/graph.ts:124 | `Math.round(n / 3)` equals `(n + 1) div 3` |
| Layout.EndsAreMarked | src/components/graph-component/draw/graph.ts:129 | the first and last columns are always marked |
| Layout.NineColumnMarks | src/components/graph-component/draw/graph.ts:124-129 | nine columns are marked at exactly 0, 3, 6 and 8 |
| Layout.SingleColumnMark | src/components/graph-component/draw/graph.ts:124-129 | one column has a split of 0 and is marked as the last |
| Layout.AtMostFourMarks | src/components/graph-component/draw/graph.ts:124-129 | a marked column is the first, the last, or one or two splits in |
| Layout.MaxValue | src/components/graph-component/draw/graph.ts:139 | `maxValue` is non-negative, at least every value, and 0 or one of the values |
| Layout.CalcYGridlines | src/components/graph-component/draw/graph.ts:136-158 | three gridlines: the top margin, the middle, and the plot bottom `marginBWithSwimlanes` above the canvas bottom; labels are max, half and 0; the label column fits all three |
| Layout.MiddleLineBetween | src/components/graph-component/draw/graph.ts:144-146 | with room to plot, the middle gridline lies between the others, within half a pixel of halfway |
| Layout.CalcYRows | src/components/graph-component/draw/graph.ts:159 | one row per swimlane, `swimlaneHeight` apart, the first `spaceGraphSwimlanes` below the bottom gridline, the last ending at the bottom margin |
| Layout.GraphMaxValuePositive | src/components/graph-component/draw/graph.ts:143 | `graphMaxValue` is positive exactly when the largest value is at least one half |
| GraphLayout.ResolveOptions | src/components/graph-component/draw/graph.ts:65-75 | given options are used as they are; otherwise margins 20/10/20/10, gap 30, row height 20, identity formatter |
| GraphLayout.ResolveAxis | src/components/graph-component/draw/graph.ts:77-87 | the axis is the one given; a missing axis stays missing |
| GraphLayout.IndexOf | src/components/graph-component/draw/graph.ts:231 | `findIndex`: none iff no column has the id; otherwise the first column that has it |
| GraphLayout.GetX | src/components/graph-component/draw/graph.ts:230-233 | for a layout of the axis, an x exists iff the id is on the axis |
| GraphLayout.GetXFirstColumn | src/components/graph-component/draw/graph.ts:230-233 | the x is that of the first column with the id |
| GraphLayout.SeriesCircles | src/components/graph-component/draw/graph.ts:168-179 | one circle per series point |
| GraphLayout.SeriesCirclesPlaced | src/components/graph-component/draw/graph.ts:168-179 | circle k has its id's column x, its value's y, diameter 3, hover diameter 20, and the value as caption |
| GraphLayout.ValueToYOnGridlines | src/components/graph-component/draw/graph.ts:143-173 | value 0 sits on the bottom gridline and `graphMaxValue` on the top one, as does a whole-number maximum |
| GraphLayout.ValueToYDecreasing | src/components/graph-component/draw/graph.ts:173 | with room to plot, larger values sit higher |
| GraphLayout.GraphYLines | src/components/graph-component/draw/graph.ts:181-195 | the loop builds `max(n - 1, 0)` segments, segment k joining circle k to circle k + 1 |
| GraphLayout.SwimlaneDataOf | src/components/graph-component/draw/graph.ts:197-228 | lane i's record: no marker list, row i's top, the configured height, 16-pixel markers, `graphMarginL`, the caption, and each interval's two ids as column x's |
| GraphLayout.FilledSwimlanes | src/components/graph-component/draw/graph.ts:197-228 | lanes built by the chart have no circles; each interval block spans from its first id's column to its second's, on its row |
| GraphLayout.AxisBaseline | src/components/graph-component/draw/graph.ts:235-242 | the axis baseline runs from `graphMarginL` to the last column, and lies on the bottom gridline exactly when drawn at the height the layout used |
| GraphLayout.OverlayVertices | src/components/graph-component/draw/graph.ts:337-354 | no vertices without circles; otherwise (0,0), (0, y first), every centre in order, (width, y last), (width, 0) |
| GraphLayout.NeedsRedrawRules | src/components/graph-component/draw/graph.ts:305-335 | a size change or a hovered circle repaints; otherwise it repaints iff the pointer is on the canvas and not where the last repaint stored it |
| GraphLayout.StillPointerNoRedraw | src/components/graph-component/draw/graph.ts:305-335 | after one tick, a second tick with the same pointer and size and no hovered circle does not repaint |
| GraphLayout.Reversed | src/components/graph-component/draw/graph.ts:267 | reversing keeps the length |
| GraphLayout.ReversedAt | src/components/graph-component/draw/graph.ts:267 | element k of the reverse is element `n - 1 - k` |
| GraphLayout.ReversedTwice | src/components/graph-component/draw/graph.ts:267 | reversing twice restores the order |
| GraphLayout.GridCommands | src/components/graph-component/draw/graph.ts:275-283 | two commands per gridline |
| GraphLayout.GridCommandsAt | src/components/graph-component/draw/graph.ts:275-283 | gridline k paints, at commands 2k and 2k + 1, its line from `maxLineLabelsWidth + 20` to the canvas width at its y, then its label at (10, y) |
| GraphLayout.RowCommands | src/components/graph-component/draw/graph.ts:285-299 | two commands per swimlane row, plus one closing line when there is at least one row |
| GraphLayout.RowCommandsAt | src/components/graph-component/draw/graph.ts:285-299 | row k paints, at commands 2k and 2k + 1, its full-width top line, then its caption at (10, y + swimlaneHeight / 2); the single command after all rows is the line `swimlaneHeight` below the last row's top |
| GraphLayout.LineCommands | src/components/graph-component/draw/graph.ts:301 | one segment per series line |
| GraphLayout.LineCommandsAt | src/components/graph-component/draw/graph.ts:301 | series line k paints the segment between its two ends |
| GraphLayout.CircleCommands | src/components/graph-component/draw/graph.ts:302 | one command per series circle |
| GraphLayout.CircleCommandsAt | src/components/graph-component/draw/graph.ts:302 | circle k paints an ellipse at its centre with its diameter |
| GraphLayout.FrameLayers | src/components/graph-component/draw/graph.ts:258-302 | a repaint is nine layers in this order: the clear and the top-left anchor, the lanes, the axis, the overlay, the middle-left anchor, the gridlines, the rows, the series lines, the series circles; the first starts at 0 and each next one right where the previous ends, and each occupies exactly its own commands |
| GraphLayout.FrameOrder | src/components/graph-component/draw/graph.ts:258-302 | a repaint starts by clearing and ends with the series circles in series order |
| GraphLayout.ReversingKeepsLaidOut | src/components/graph-component/draw/graph.ts:267 | reversing the lanes keeps the state laid out, with the order flipped |
| GraphLayout.TickKeepsLaidOut | src/components/graph-component/draw/graph.ts:249-267 | a tick that keeps or reverses the lanes keeps the state laid out for the same size |
| GraphLayout.LaidOutShapes | src/components/graph-component/draw/graph.ts:125-159 | a laid-out state has one position per tick, three labelled gridlines and one row per swimlane, so it can be painted |
| GraphLayout.LayoutFollowsHeight | src/components/graph-component/draw/graph.ts:356-364 | the bottom gridline moves pixel for pixel with the height laid out for, so `resize`, which lays out for the old height, is not idempotent |
| Graphs.Graph.constructor | src/components/graph-component/draw/graph.ts:63-93 | options resolved, the axis kept as `ResolveAxis` leaves it, the other inputs stored, canvas at the container size, caches empty, state laid out for that size in built lane order |
| Graphs.Graph.CalcAndFill | src/components/graph-component/draw/graph.ts:105-116 | the derived state becomes the layout of the given width and the current canvas height, lanes in built order |
| Graphs.Graph.Resize | src/components/graph-component/draw/graph.ts:356-364 | the layout is for the new width and the old height; the canvas then takes the new size |
| Graphs.Graph.IsRedrawRequired | src/components/graph-component/draw/graph.ts:305-335 | the result is the redraw rule on the old size cache; the cache then holds the current size |
| Graphs.Graph.Draw | src/components/graph-component/draw/graph.ts:249-303 | no repaint: nothing painted and nothing else changed; repaint: pointer stored, lanes reversed in place, and the frame painted with the lanes in their new order |
| Graphs.Graph.Paint | src/components/graph-component/draw/graph.ts:258-302 | the commands are the layers bottom first: clear, lanes, axis, overlay, gridlines, rows, lines, circles |
| Graphs.StillPointerTicks | src/components/graph-component/draw/graph.ts:249-253 | two ticks with a still pointer over no circle: the second paints nothing |
| Graphs.DrawKeepsLayout | src/components/graph-component/draw/graph.ts:249-267 | a tick keeps the chart laid out for the same size, with the lane order flipped exactly when the lanes moved |

## Left out

- The p5 instance, the canvas element, `setup`, `setupResize` (the ResizeObserver and its one-entry check) and `dispose`: browser I/O. The container's bounds are the `boundsWidth` and `boundsHeight` parameters, and the pointer is `mx`, `my`.
- Colours, fills, strokes, stroke weights, text sizes, the font family, `console.log`, and the circle's `labelTextSize`: styling and logging, with no effect on geometry.
- IEEE floating point: pixels are real numbers. NaN appears only as the `RectNaN` command.
- `line.ts` is not part of this model beyond the segment each series line paints (`GraphLayout.LineCommands`).
- The wrapper component, the stories and the build configuration are not part of this model.
- Layout.CalcY: requires `graphMaxValue > 0`. At 0 the source divides by zero, and every y derived from the scale is Infinity or NaN.
- Graphs.Graph.constructor: requires an axis, and a non-empty one. A missing axis stays missing after `ResolveAxis`, and `calcX` then fails on it; an empty axis makes `XAxis.draw` read `positions.at(0).x` of nothing. It also requires every series id and interval id to be on the axis, because `getX` then gives `undefined` and the NaN geometry that follows is not modelled.
- Graphs.Graph.Draw: the pointer is one value per tick, so the two reads of `mouseX`/`mouseY` within one tick are taken to agree. The in-place reverse is modelled as reassigning the `swimlanes` sequence field, so aliasing of the JavaScript array is not modelled.
- Graphs.Graph.Valid: the class invariant keeps only well-formed inputs and a paintable layout. The exact layout is carried by `LaidOut` in the postconditions of the constructor, `CalcAndFill`, `Resize` and `DrawKeepsLayout`, not by the invariant.
