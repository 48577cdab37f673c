/** The layout records of `xcalc.ts`. */
module XCalcs {

  /** One axis column: its pixel x, whether it gets a tick and label, and the
      formatted label. */
  datatype XPosition = XPosition(x: real, hasMark: bool, caption: string)

  /** The horizontal layout: the left margin reserved for row captions and
      one position per axis tick. */
  datatype XCalc = XCalc(graphMarginL: real, positions: seq<XPosition>)

  /** The vertical layout: pixels per value unit, the bottom band reserved for
      the swimlanes, the gridlines with their labels and the label column's
      width, and the top of each swimlane row. */
  datatype YCalc = YCalc(
    height: real, marginBWithSwimlanes: real, maxLineLabelsWidth: real,
    lineLabels: seq<string>, graphLines: seq<real>, swimLanes: seq<real>)
}
