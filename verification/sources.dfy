/** The records of the pie chart: its input items, the derived spans and leader
    lines, and the three kinds of render cache.

    Kotlin `Float` fields are `real`; colours are resolved ARGB `Int`s and stay
    opaque integers. All records are immutable values here: where the Kotlin code
    mutates a `var` field in place, the model builds an updated copy.
 */
module Sources {

  /** One input item: a duration label, a course name, a percentage and a colour resource id. */
  datatype PieViewData = PieViewData(duration: string, courseName: string, percent: real, color: int)

  /** One angle span of the ring, in degrees (clockwise, -90 is twelve o'clock). */
  datatype ArcData = ArcData(
    index: int,
    startAngle: real,
    endAngle: real,
    swipeAngle: real,
    textAbove: string,
    textBelow: string,
    color: int)

  /** A leader line: start point on the outer margin circle, turning point further
      out, end point at the screen edge; `dpToPre` is the vertical distance to the
      previous line's turning point and `isFitToRender` the decimation verdict. */
  datatype LineData = LineData(
    startX: real, startY: real,
    turningX: real, turningY: real,
    endX: real, endY: real,
    alpha: int,
    color: int,
    dpToPre: real,
    isFitToRender: bool)

  /** An axis-aligned rectangle (Android `RectF`). */
  datatype RectF = RectF(left: real, top: real, right: real, bottom: real)

  /** One recorded wedge: the bounding rectangle, its start angle, its sweep and colour. */
  datatype ArcCache = ArcCache(rectF: RectF, startAngle: real, swipeAngle: real, color: int)

  /** Paint text alignment. */
  datatype Align = AlignLeft | AlignRight | AlignCenter

  /** One recorded two-line label; a single alpha is shared by both lines. */
  datatype TextCache = TextCache(
    text1: string, text2: string,
    x1: real, y1: real,
    x2: real, y2: real,
    textAlign: Align,
    color1: int, color2: int,
    alpha: int)

  /** The outer end of one radial divider drawn from the centre. */
  datatype WhiteLineData = WhiteLineData(endX: real, endY: real)

  /** A leader line as built by the line planner, before decimation and before it is
      ever cached: `alpha` takes its Kotlin default value 0 and `isFitToRender` is false. */
  function NewLineData(startX: real, startY: real, turningX: real, turningY: real,
                       endX: real, endY: real, color: int, dpToPre: real): LineData
  {
    LineData(startX, startY, turningX, turningY, endX, endY, 0, color, dpToPre, false)
  }
}
