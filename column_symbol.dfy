/** QwtColumnRect (two intervals with border flags and a direction) and
    QwtColumnSymbol's state: style, frame style, pen and brush. Painting is
    reduced to the decision drawBox takes for the Plain frame. */
module ColumnSymbol {
  import opened Types

  /** QwtInterval with its border flags. */
  datatype BorderInterval = BorderInterval(minValue: real, maxValue: real, excludeMinimum: bool, excludeMaximum: bool)

  /** QwtColumnRect::Direction. */
  datatype Direction = LeftToRight | RightToLeft | BottomToTop | TopToBottom

  datatype ColumnRect = ColumnRect(hInterval: BorderInterval, vInterval: BorderInterval, direction: Direction)

  /** QwtColumnRect::orientation. */
  function ColumnOrientation(c: ColumnRect): (o: Orientation)
    ensures o.Horizontal? <==> c.direction.LeftToRight? || c.direction.RightToLeft?
    ensures o.Vertical? <==> c.direction.BottomToTop? || c.direction.TopToBottom?
  {
    match c.direction
    case LeftToRight => Horizontal
    case RightToLeft => Horizontal
    case _ => Vertical
  }

  /** QRectF::normalized: a negative width or height is flipped, moving the
      origin to the other edge. */
  function Normalized(r: RectF): (n: RectF)
    ensures n.width >= 0.0 && n.height >= 0.0
    ensures n.x == MinR(r.x, r.Right()) && n.Right() == MaxR(r.x, r.Right())
    ensures n.y == MinR(r.y, r.Bottom()) && n.Bottom() == MaxR(r.y, r.Bottom())
  {
    var h := if r.width < 0.0 then RectF(r.x + r.width, r.y, -r.width, r.height) else r;
    if h.height < 0.0 then RectF(h.x, h.y + h.height, h.width, -h.height) else h
  }

  /** QRectF::adjust. */
  function Adjusted(r: RectF, dx1: real, dy1: real, dx2: real, dy2: real): RectF
  {
    RectF(r.x + dx1, r.y + dy1, r.width + dx2 - dx1, r.height + dy2 - dy1)
  }

  /** QwtColumnRect::toRect: the normalized rectangle spanned by the two
      intervals, each excluded border moved inward by one. */
  function ToRect(c: ColumnRect): (r: RectF)
    ensures r.width == Abs(c.hInterval.maxValue - c.hInterval.minValue)
      - Inset(c.hInterval.excludeMinimum) - Inset(c.hInterval.excludeMaximum)
    ensures r.height == Abs(c.vInterval.maxValue - c.vInterval.minValue)
      - Inset(c.vInterval.excludeMinimum) - Inset(c.vInterval.excludeMaximum)
  {
    var h := c.hInterval;
    var v := c.vInterval;
    var r0 := Normalized(RectF(h.minValue, v.minValue, h.maxValue - h.minValue, v.maxValue - v.minValue));
    var r1 := if h.excludeMinimum then Adjusted(r0, 1.0, 0.0, 0.0, 0.0) else r0;
    var r2 := if h.excludeMaximum then Adjusted(r1, 0.0, 0.0, -1.0, 0.0) else r1;
    var r3 := if v.excludeMinimum then Adjusted(r2, 0.0, 1.0, 0.0, 0.0) else r2;
    if v.excludeMaximum then Adjusted(r3, 0.0, 0.0, 0.0, -1.0) else r3
  }

  function Inset(exclude: bool): real { if exclude then 1.0 else 0.0 }

  /** Each edge of toRect lies on the smaller or larger bound of its
      interval, whatever order the bounds are given in, moved inward by one
      exactly when that border is excluded. */
  lemma {:induction false} ToRectEdges(c: ColumnRect)
    ensures ToRect(c).x == MinR(c.hInterval.minValue, c.hInterval.maxValue) + Inset(c.hInterval.excludeMinimum)
    ensures ToRect(c).Right() == MaxR(c.hInterval.minValue, c.hInterval.maxValue) - Inset(c.hInterval.excludeMaximum)
    ensures ToRect(c).y == MinR(c.vInterval.minValue, c.vInterval.maxValue) + Inset(c.vInterval.excludeMinimum)
    ensures ToRect(c).Bottom() == MaxR(c.vInterval.minValue, c.vInterval.maxValue) - Inset(c.vInterval.excludeMaximum)
  {
    var h := c.hInterval;
    var v := c.vInterval;
    var r0 := Normalized(RectF(h.minValue, v.minValue, h.maxValue - h.minValue, v.maxValue - v.minValue));
    assert r0.x == MinR(h.minValue, h.maxValue) && r0.Right() == MaxR(h.minValue, h.maxValue);
    assert r0.y == MinR(v.minValue, v.maxValue) && r0.Bottom() == MaxR(v.minValue, v.maxValue);
  }

  /** Without excluded borders toRect has non-negative size and is the
      same for an interval given with its bounds swapped. */
  lemma {:induction false} ToRectSymmetric(c: ColumnRect)
    requires !c.hInterval.excludeMinimum && !c.hInterval.excludeMaximum
    requires !c.vInterval.excludeMinimum && !c.vInterval.excludeMaximum
    ensures ToRect(c).width >= 0.0 && ToRect(c).height >= 0.0
    ensures ToRect(c).width == Abs(c.hInterval.maxValue - c.hInterval.minValue)
    ensures ToRect(c).height == Abs(c.vInterval.maxValue - c.vInterval.minValue)
    ensures ToRect(c) == ToRect(c.(hInterval := BorderInterval(c.hInterval.maxValue, c.hInterval.minValue, false, false)))
    ensures ToRect(c) == ToRect(c.(vInterval := BorderInterval(c.vInterval.maxValue, c.vInterval.minValue, false, false)))
  {
    ToRectEdges(c);
    var c1 := c.(hInterval := BorderInterval(c.hInterval.maxValue, c.hInterval.minValue, false, false));
    var c2 := c.(vInterval := BorderInterval(c.vInterval.maxValue, c.vInterval.minValue, false, false));
    ToRectEdges(c1);
    ToRectEdges(c2);
  }

  /** normalized() is idempotent. */
  lemma {:induction false} NormalizedIdempotent(r: RectF)
    ensures Normalized(Normalized(r)) == Normalized(r)
  {
    var n := Normalized(r);
    assert n.width >= 0.0 && n.height >= 0.0;
  }

  /** QwtColumnSymbol::Style is an int: NoStyle, Box, and UserStyle onward. */
  const NoStyle: int := -1
  const Box: int := 0
  const UserStyle: int := 1000

  /** QwtColumnSymbol::FrameStyle. */
  datatype FrameStyle = NoFrame | Plain | Raised

  /** The parts of QPen and QBrush the symbol uses: a real width and a colour. */
  datatype Pen = Pen(widthF: real, color: nat)
  datatype Brush = Brush(color: nat)

  const Black: nat := 0
  const Gray: nat := 1

  /** QPen::width: the width rounded to an int. */
  function PenWidth(p: Pen): int { QRound(p.widthF) }

  class QwtColumnSymbol {
    var style: int
    var frameStyle: FrameStyle
    var pen: Pen
    var brush: Brush

    /** A Plain frame, a black pen of width 1 and a gray brush. */
    constructor(s: int)
      ensures Style() == s && FrameStyleOf() == Plain
      ensures LineWidth() == 1 && pen == Pen(1.0, Black) && brush == Brush(Gray)
    {
      style := s;
      frameStyle := Plain;
      pen := Pen(1.0, Black);
      brush := Brush(Gray);
    }

    method SetStyle(s: int)
      modifies this
      ensures Style() == s
      ensures frameStyle == old(frameStyle) && pen == old(pen) && brush == old(brush)
    {
      style := s;
    }

    function Style(): int
      reads this
    {
      style
    }

    method SetPen(p: Pen)
      modifies this
      ensures pen == p
      ensures style == old(style) && frameStyle == old(frameStyle) && brush == old(brush)
    {
      pen := p;
    }

    method SetBrush(b: Brush)
      modifies this
      ensures brush == b
      ensures style == old(style) && frameStyle == old(frameStyle) && pen == old(pen)
    {
      brush := b;
    }

    method SetFrameStyle(f: FrameStyle)
      modifies this
      ensures FrameStyleOf() == f
      ensures style == old(style) && pen == old(pen) && brush == old(brush)
    {
      frameStyle := f;
    }

    function FrameStyleOf(): FrameStyle
      reads this
    {
      frameStyle
    }

    /** setLineWidth: a negative width is stored as 0; the pen's colour is
      kept. */
    method SetLineWidth(width: int)
      modifies this
      ensures LineWidth() == if width < 0 then 0 else width
      ensures pen.color == old(pen.color)
      ensures style == old(style) && frameStyle == old(frameStyle) && brush == old(brush)
    {
      var w := width;
      if w < 0 {
        w := 0;
      }
      pen := pen.(widthF := w as real);
      assert QRound(w as real) == w;
    }

    /** lineWidth: the pen's width. */
    function LineWidth(): (w: int)
      reads this
      ensures pen.widthF >= 0.0 ==> w >= 0
      ensures w as real - 0.5 <= pen.widthF < w as real + 0.5
    {
      PenWidth(pen)
    }
  }

  /** What qwtDrawBox paints for a Plain frame: nothing but the fill for a
      zero pen width, a single line for a rectangle of zero width or height,
      else a frame whose width is capped at half the width and half the
      height, less one. A negative cap is refused by QPen::setWidthF, so the
      frame then keeps the pen's own width. */
  datatype BoxOutline = FillOnly | VerticalLine | HorizontalLine | Frame(lineWidth: real)

  function PlainOutline(r: RectF, penWidth: real): (o: BoxOutline)
    ensures o.FillOnly? <==> penWidth <= 0.0
    ensures o.VerticalLine? <==> penWidth > 0.0 && r.width == 0.0
    ensures o.HorizontalLine? <==> penWidth > 0.0 && r.width != 0.0 && r.height == 0.0
    ensures o.Frame? ==> 0.0 <= o.lineWidth <= penWidth
    ensures o.Frame? && (r.height / 2.0 - 1.0 < 0.0 || r.width / 2.0 - 1.0 < 0.0) ==> o.lineWidth == penWidth
    ensures o.Frame? && r.height / 2.0 - 1.0 >= 0.0 && r.width / 2.0 - 1.0 >= 0.0 ==>
      (o.lineWidth <= r.height / 2.0 - 1.0 && o.lineWidth <= r.width / 2.0 - 1.0) &&
      (o.lineWidth == penWidth || o.lineWidth == r.height / 2.0 - 1.0 || o.lineWidth == r.width / 2.0 - 1.0)
  {
    if penWidth <= 0.0 then FillOnly
    else if r.width == 0.0 then VerticalLine
    else if r.height == 0.0 then HorizontalLine
    else
      var lw := MinR(penWidth, r.height / 2.0 - 1.0);
      var lw2 := MinR(penWidth, r.width / 2.0 - 1.0);
      var capped := MinR(lw, lw2);
      Frame(if capped < 0.0 then penWidth else capped)
  }

  /** A frame drawn in a rectangle at least 2*(w+1) wide and high keeps the
      pen's width w. */
  lemma {:induction false} WideBoxKeepsPenWidth(r: RectF, w: real)
    requires w > 0.0 && r.width >= 2.0 * (w + 1.0) && r.height >= 2.0 * (w + 1.0)
    ensures PlainOutline(r, w) == Frame(w)
  {
    assert r.width != 0.0 && r.height != 0.0;
    assert MinR(w, r.height / 2.0 - 1.0) == w;
    assert MinR(w, r.width / 2.0 - 1.0) == w;
  }
}
