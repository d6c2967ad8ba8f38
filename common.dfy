/** Value types shared by the model: an optional value and the Qt geometry
    records (QPoint, QRect, QPointF, QRectF, QSizeF) and QwtInterval, as plain data. */
module Types {

  datatype Option<+T> = None | Some(value: T)

  /** QPoint. */
  datatype Point = Point(x: int, y: int)

  /** QRect kept as left/top/width/height; Qt's right() is left+width-1 and
      bottom() is top+height-1. */
  datatype Rect = Rect(left: int, top: int, width: int, height: int)
  {
    function Right(): int { left + width - 1 }
    function Bottom(): int { top + height - 1 }
    /** QRect::isValid: left <= right and top <= bottom. */
    predicate IsValid() { width > 0 && height > 0 }
    /** QRect::isEmpty. */
    predicate IsEmpty() { width <= 0 || height <= 0 }
    /** QRect::contains(QPoint) for a normalised rectangle (edges included). */
    predicate Contains(p: Point) { left <= p.x <= Right() && top <= p.y <= Bottom() }
  }

  /** The null QRect(): left = top = 0, right = bottom = -1. */
  const NullRect := Rect(0, 0, 0, 0)

  /** QPointF. */
  datatype PointF = PointF(x: real, y: real)

  /** QRectF kept as x/y/width/height. */
  datatype RectF = RectF(x: real, y: real, width: real, height: real)
  {
    function Right(): real { x + width }
    function Bottom(): real { y + height }
    predicate IsValid() { width > 0.0 && height > 0.0 }
    predicate IsEmpty() { width <= 0.0 || height <= 0.0 }
    predicate IsNull() { width == 0.0 && height == 0.0 }
    /** QRectF::contains(QPointF) for a rectangle with non-negative extent. */
    predicate Contains(p: PointF) { x <= p.x <= x + width && y <= p.y <= y + height }
  }

  /** The null QRectF(). */
  const NullRectF := RectF(0.0, 0.0, 0.0, 0.0)

  /** QwtInterval without border flags: [minValue, maxValue]. */
  datatype Interval = Interval(minValue: real, maxValue: real)
  {
    /** QwtInterval::isValid for an interval that includes both borders. */
    predicate IsValid() { minValue <= maxValue }
    function Width(): real { if IsValid() then maxValue - minValue else 0.0 }
  }

  /** A QWidget as the figure code sees it: an identity, whether it is a
      QwtPlot (qobject_cast succeeds) and, for a plot, whether it is a parasite. */
  datatype Widget = Widget(id: nat, isPlot: bool, isParasite: bool)

  /** Qt::Orientation. */
  datatype Orientation = Horizontal | Vertical

  /** QSize. */
  datatype Size = Size(width: int, height: int)

  function Max(a: int, b: int): int { if a < b then b else a }
  function Min(a: int, b: int): int { if a < b then a else b }
  function Abs(x: real): real { if x < 0.0 then -x else x }
  function AbsInt(x: int): int { if x < 0 then -x else x }

  function MaxR(a: real, b: real): real { if a < b then b else a }
  function MinR(a: real, b: real): real { if a < b then a else b }

  /** qRound on a real: round half up. */
  function QRound(v: real): int { (v + 0.5).Floor }

  /** qwtCeil / std::ceil on a real. */
  function Ceil(v: real): int { -((-v).Floor) }

  /** A conversion of a double to int, truncating toward zero. */
  function Trunc(v: real): int { if v >= 0.0 then v.Floor else -((-v).Floor) }

  /** QRectF::setLeft: moves the left edge, keeping the right edge. */
  function SetLeft(r: RectF, x: real): RectF { RectF(x, r.y, r.width + r.x - x, r.height) }
  /** QRectF::setTop: moves the top edge, keeping the bottom edge. */
  function SetTop(r: RectF, y: real): RectF { RectF(r.x, y, r.width, r.height + r.y - y) }
  function SetWidth(r: RectF, w: real): RectF { RectF(r.x, r.y, w, r.height) }
  function SetHeight(r: RectF, h: real): RectF { RectF(r.x, r.y, r.width, h) }
}
