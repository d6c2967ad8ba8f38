/** QwtFigureLayout: an ordered list of layout items, each placed by a
    rectangle in normalised [0,1] figure coordinates, plus four figure margins.
    Converting to pixels in setGeometry is not modelled. */
module FigureLayout {
  import opened Types
  import Algorithm

  /** A QLayoutItem: its identity and the widget it manages (a spacer has none). */
  datatype ItemRef = ItemRef(id: nat, widget: Option<Widget>)

  /** PrivateData::LayoutItem: the item and its normalised rectangle. */
  datatype LayoutItem = LayoutItem(item: ItemRef, normRect: RectF)

  /** QRectF(0, 0, 1, 1): the whole figure. */
  const UnitRectF := RectF(0.0, 0.0, 1.0, 1.0)

  /** The default value of every figure margin. */
  const DefaultMargin: real := 0.02

  /** The widget of every item, in layout order. */
  function Widgets(items: seq<LayoutItem>): (ws: seq<Option<Widget>>)
    ensures |ws| == |items|
    ensures forall i :: 0 <= i < |items| ==> ws[i] == items[i].item.widget
  {
    seq(|items|, i requires 0 <= i < |items| => items[i].item.widget)
  }

  /** qBound(lo, v, hi) = qMax(lo, qMin(hi, v)). */
  function BoundR(lo: real, v: real, hi: real): (r: real)
    ensures lo <= hi ==> lo <= r <= hi
    ensures lo <= v <= hi ==> r == v
  {
    MaxR(lo, MinR(hi, v))
  }

  /** roundToPrecision in calcNormRect: qRound(v / 1e-6) * 1e-6. The result
      is within half a millionth of v. */
  function RoundToPrecision(v: real): (r: real)
    ensures v - 1.0 / 2000000.0 < r <= v + 1.0 / 2000000.0
  {
    var n := QRound(v * 1000000.0);
    assert v * 1000000.0 - 0.5 < n as real <= v * 1000000.0 + 0.5;
    n as real / 1000000.0
  }

  /** QwtFigureLayout::calcNormRect: the position of rect relative to the size
      of parentRect, rounded to six decimals and clamped into the unit square. */
  function CalcNormRect(parentRect: Rect, rect: Rect): (r: RectF)
    ensures parentRect.IsEmpty() ==> r == NullRectF
    ensures !parentRect.IsEmpty() ==>
      0.0 <= r.x <= 1.0 && 0.0 <= r.y <= 1.0 &&
      0.0 <= r.width <= 1.0 - r.x && 0.0 <= r.height <= 1.0 - r.y
  {
    if parentRect.IsEmpty() then NullRectF
    else
      var pw := Max(parentRect.width, 1) as real;
      var ph := Max(parentRect.height, 1) as real;
      var left := BoundR(0.0, RoundToPrecision(rect.left as real / pw), 1.0);
      var top := BoundR(0.0, RoundToPrecision(rect.top as real / ph), 1.0);
      var width := BoundR(0.0, RoundToPrecision(rect.width as real / pw), 1.0 - left);
      var height := BoundR(0.0, RoundToPrecision(rect.height as real / ph), 1.0 - top);
      RectF(left, top, width, height)
  }

  /** When the exact ratios lie inside the unit square, calcNormRect reproduces
      the child's left and top edge to within half a millionth. */
  lemma {:induction false} CalcNormRectAccurate(parentRect: Rect, rect: Rect)
    requires !parentRect.IsEmpty()
    requires 0 <= rect.left <= parentRect.width && 0 <= rect.top <= parentRect.height
    ensures var r := CalcNormRect(parentRect, rect);
      -1.0 / 2000000.0 <= r.x - rect.left as real / parentRect.width as real <= 1.0 / 2000000.0 &&
      -1.0 / 2000000.0 <= r.y - rect.top as real / parentRect.height as real <= 1.0 / 2000000.0
  {
    var pw := parentRect.width as real;
    var ph := parentRect.height as real;
    var x := rect.left as real / pw;
    var y := rect.top as real / ph;
    assert 0.0 <= x <= 1.0 by {
      assert rect.left as real <= pw;
    }
    assert 0.0 <= y <= 1.0 by {
      assert rect.top as real <= ph;
    }
    assert Max(parentRect.width, 1) as real == pw;
    assert Max(parentRect.height, 1) as real == ph;
  }

  /** The rejection test shared by the grid addAxes and calcGridRect. */
  predicate GridParamsValid(rowCnt: int, colCnt: int, row: int, col: int, rowSpan: int, colSpan: int) {
    rowCnt > 0 && colCnt > 0 && row >= 0 && col >= 0 && rowSpan > 0 && colSpan > 0 &&
    row + rowSpan <= rowCnt && col + colSpan <= colCnt
  }


  /** The width left for the cells of an n-cell row once the n-1 gaps are taken. */
  function Available(n: int, space: real): real { 1.0 - (n - 1) as real * space }

  /** The unclamped rectangle of a grid cell: position k·(cell + space) and
      extent span·cell + (span-1)·space, where cell = available / count. */
  function CellStart(k: int, n: int, space: real): real
    requires n > 0
  {
    k as real * (Available(n, space) / n as real + space)
  }

  function CellExtent(span: int, n: int, space: real): real
    requires n > 0
  {
    span as real * (Available(n, space) / n as real) + (span - 1) as real * space
  }

  /** QwtFigureLayout::calcGridRect: the full figure for invalid parameters or
      when the gaps leave no room; otherwise the cell rectangle, with its left
      and top edges raised to 0 and its extent cut back to the figure. */
  function CalcGridRect(rowCnt: int, colCnt: int, row: int, col: int, rowSpan: int, colSpan: int,
                        wspace: real, hspace: real): (r: RectF)
    ensures !GridParamsValid(rowCnt, colCnt, row, col, rowSpan, colSpan) ==> r == UnitRectF
    ensures (GridParamsValid(rowCnt, colCnt, row, col, rowSpan, colSpan) &&
             (Available(colCnt, wspace) <= 0.0 || Available(rowCnt, hspace) <= 0.0)) ==> r == UnitRectF
    ensures r.x >= 0.0 && r.y >= 0.0 && r.x + r.width <= 1.0 && r.y + r.height <= 1.0
  {
    if !GridParamsValid(rowCnt, colCnt, row, col, rowSpan, colSpan) then UnitRectF
    else if Available(colCnt, wspace) <= 0.0 || Available(rowCnt, hspace) <= 0.0 then UnitRectF
    else
      var r0 := SetLeft(NullRectF, CellStart(col, colCnt, wspace));
      var r1 := SetTop(r0, CellStart(row, rowCnt, hspace));
      var r2 := SetWidth(r1, CellExtent(colSpan, colCnt, wspace));
      var r3 := SetHeight(r2, CellExtent(rowSpan, rowCnt, hspace));
      var r4 := SetLeft(r3, MaxR(0.0, r3.x));
      var r5 := SetTop(r4, MaxR(0.0, r4.y));
      var r6 := SetWidth(r5, MinR(r5.width, 1.0 - r5.x));
      SetHeight(r6, MinR(r6.height, 1.0 - r6.y))
  }

  /** With non-negative spacing a cell never reaches past the end of its row:
      start + extent <= 1, and the start is not negative. */
  lemma {:induction false} CellFits(k: int, span: int, n: int, space: real)
    requires n > 0 && k >= 0 && span > 0 && k + span <= n && space >= 0.0 && Available(n, space) > 0.0
    ensures CellStart(k, n, space) >= 0.0
    ensures CellStart(k, n, space) + CellExtent(span, n, space) <= 1.0
  {
    var cell := Available(n, space) / n as real;
    assert cell * n as real == Available(n, space);
    assert cell >= 0.0;
    var e := (k + span) as real;
    calc {
      CellStart(k, n, space) + CellExtent(span, n, space);
      k as real * (cell + space) + span as real * cell + (span - 1) as real * space;
      e * cell + (e - 1.0) * space;
      n as real * cell + (n as real - 1.0) * space - (n as real - e) * (cell + space);
      1.0 - (n as real - e) * (cell + space);
    }
    assert (n as real - e) * (cell + space) >= 0.0;
    assert k as real * (cell + space) >= 0.0;
  }

  /** With non-negative spacing and room left for the cells, no clamping
      happens: calcGridRect returns exactly the cell rectangle. */
  lemma {:induction false} GridRectExact(rowCnt: int, colCnt: int, row: int, col: int, rowSpan: int, colSpan: int,
                                         wspace: real, hspace: real)
    requires GridParamsValid(rowCnt, colCnt, row, col, rowSpan, colSpan)
    requires wspace >= 0.0 && hspace >= 0.0
    requires Available(colCnt, wspace) > 0.0 && Available(rowCnt, hspace) > 0.0
    ensures CalcGridRect(rowCnt, colCnt, row, col, rowSpan, colSpan, wspace, hspace) ==
      RectF(CellStart(col, colCnt, wspace), CellStart(row, rowCnt, hspace),
            CellExtent(colSpan, colCnt, wspace), CellExtent(rowSpan, rowCnt, hspace))
  {
    CellFits(col, colSpan, colCnt, wspace);
    CellFits(row, rowSpan, rowCnt, hspace);
  }

  /** With non-negative spacing, two cells of the same grid whose columns do
      not overlap get rectangles that do not overlap horizontally. */
  lemma {:induction false} GridCellsDisjoint(rowCnt: int, colCnt: int, row1: int, col1: int, rowSpan1: int, colSpan1: int,
                                             row2: int, col2: int, rowSpan2: int, colSpan2: int, wspace: real, hspace: real)
    requires GridParamsValid(rowCnt, colCnt, row1, col1, rowSpan1, colSpan1)
    requires GridParamsValid(rowCnt, colCnt, row2, col2, rowSpan2, colSpan2)
    requires wspace >= 0.0 && hspace >= 0.0
    requires Available(colCnt, wspace) > 0.0 && Available(rowCnt, hspace) > 0.0
    requires col1 + colSpan1 <= col2
    ensures var r1 := CalcGridRect(rowCnt, colCnt, row1, col1, rowSpan1, colSpan1, wspace, hspace);
      var r2 := CalcGridRect(rowCnt, colCnt, row2, col2, rowSpan2, colSpan2, wspace, hspace);
      r1.x + r1.width <= r2.x
  {
    GridRectExact(rowCnt, colCnt, row1, col1, rowSpan1, colSpan1, wspace, hspace);
    GridRectExact(rowCnt, colCnt, row2, col2, rowSpan2, colSpan2, wspace, hspace);
    CellsOrdered(col1, colSpan1, col2, colCnt, wspace);
  }

  /** A cell ends before any cell that starts at or after its last column. */
  lemma {:induction false} CellsOrdered(k1: int, span1: int, k2: int, n: int, space: real)
    requires n > 0 && span1 > 0 && k1 + span1 <= k2 && space >= 0.0 && Available(n, space) > 0.0
    ensures CellStart(k1, n, space) + CellExtent(span1, n, space) <= CellStart(k2, n, space)
  {
    var cell := Available(n, space) / n as real;
    assert cell * n as real == Available(n, space);
    assert cell >= 0.0;
    var e := (k1 + span1) as real;
    assert CellStart(k1, n, space) + CellExtent(span1, n, space) == e * (cell + space) - space;
    assert (k2 as real - e) * (cell + space) >= 0.0;
  }

  /** The layout itself. Items keep their order; nextItemId hands out the
      identities of the QWidgetItems the layout creates for addAxes. */
  class QwtFigureLayout {
    var items: seq<LayoutItem>
    var left: real
    var bottom: real
    var right: real
    var top: real
    var nextItemId: nat

    /** An empty layout with the default margins. */
    constructor()
      ensures items == [] && nextItemId == 0
      ensures left == DefaultMargin && bottom == DefaultMargin && right == DefaultMargin && top == DefaultMargin
    {
      items := [];
      left, bottom, right, top := DefaultMargin, DefaultMargin, DefaultMargin, DefaultMargin;
      nextItemId := 0;
    }

    /** QwtFigureLayout::count. */
    function Count(): (n: nat)
      reads this
      ensures n == |items|
    {
      |items|
    }

    /** QwtFigureLayout::addItem: a null item is ignored; any other item is
      appended and covers the whole figure. */
    method AddItem(item: Option<ItemRef>)
      modifies this
      ensures item.None? ==> items == old(items)
      ensures item.Some? ==> items == old(items) + [LayoutItem(item.value, UnitRectF)]
      ensures left == old(left) && bottom == old(bottom) && right == old(right) && top == old(top)
      ensures nextItemId == old(nextItemId)
    {
      if item.None? {
        return;
      }
      items := items + [LayoutItem(item.value, UnitRectF)];
    }

    /** QwtFigureLayout::itemAt: null outside [0, count). */
    function ItemAt(index: int): (r: Option<ItemRef>)
      reads this
      ensures r.Some? <==> 0 <= index < Count()
      ensures r.Some? ==> r.value == items[index].item
    {
      if index < 0 || index >= |items| then None else Some(items[index].item)
    }

    /** QwtFigureLayout::takeAt: null outside [0, count); otherwise entry index
      is removed and returned, and the others keep their order. */
    method TakeAt(index: int) returns (r: Option<ItemRef>)
      modifies this
      ensures r == old(ItemAt(index))
      ensures r.None? ==> items == old(items)
      ensures r.Some? ==> items == old(items[..index] + items[index + 1..])
      ensures left == old(left) && bottom == old(bottom) && right == old(right) && top == old(top)
      ensures nextItemId == old(nextItemId)
    {
      if index < 0 || index >= |items| {
        return None;
      }
      r := Some(items[index].item);
      items := items[..index] + items[index + 1..];
    }

    /** QwtFigureLayout::addAxes(widget, rect): a null widget is ignored;
      otherwise one new widget item carrying rect is appended. */
    method AddAxes(widget: Option<Widget>, rect: RectF)
      modifies this
      ensures widget.None? ==> items == old(items) && nextItemId == old(nextItemId)
      ensures widget.Some? ==>
        items == old(items) + [LayoutItem(ItemRef(old(nextItemId), widget), rect)] &&
        nextItemId == old(nextItemId) + 1
      ensures left == old(left) && bottom == old(bottom) && right == old(right) && top == old(top)
    {
      if widget.None? {
        return;
      }
      items := items + [LayoutItem(ItemRef(nextItemId, widget), rect)];
      nextItemId := nextItemId + 1;
    }

    /** The addAxes(widget, left, top, width, height) overload. */
    method AddAxesAt(widget: Option<Widget>, l: real, t: real, w: real, h: real)
      modifies this
      ensures widget.None? ==> items == old(items) && nextItemId == old(nextItemId)
      ensures widget.Some? ==>
        items == old(items) + [LayoutItem(ItemRef(old(nextItemId), widget), RectF(l, t, w, h))] &&
        nextItemId == old(nextItemId) + 1
      ensures left == old(left) && bottom == old(bottom) && right == old(right) && top == old(top)
    {
      AddAxes(widget, RectF(l, t, w, h));
    }

    /** The grid addAxes: a null widget, a negative position, a non-positive
      span or count, or a span past the grid appends nothing; otherwise one
      item placed by calcGridRect is appended. */
    method AddAxesGrid(widget: Option<Widget>, rowCnt: int, colCnt: int, row: int, col: int,
                       rowSpan: int, colSpan: int, wspace: real, hspace: real)
      modifies this
      ensures widget.None? || !GridParamsValid(rowCnt, colCnt, row, col, rowSpan, colSpan) ==>
        items == old(items) && nextItemId == old(nextItemId)
      ensures widget.Some? && GridParamsValid(rowCnt, colCnt, row, col, rowSpan, colSpan) ==>
        items == old(items) + [LayoutItem(ItemRef(old(nextItemId), widget),
                                          CalcGridRect(rowCnt, colCnt, row, col, rowSpan, colSpan, wspace, hspace))] &&
        nextItemId == old(nextItemId) + 1
      ensures left == old(left) && bottom == old(bottom) && right == old(right) && top == old(top)
    {
      if widget.None? {
        return;
      }
      if row < 0 || col < 0 || rowSpan <= 0 || colSpan <= 0 || rowCnt <= 0 || colCnt <= 0 {
        return;
      }
      if row + rowSpan > rowCnt || col + colSpan > colCnt {
        return;
      }
      var normRect := CalcGridRect(rowCnt, colCnt, row, col, rowSpan, colSpan, wspace, hspace);
      items := items + [LayoutItem(ItemRef(nextItemId, widget), normRect)];
      nextItemId := nextItemId + 1;
    }

    /** QwtFigureLayout::setAxesNormPos: every item whose widget is widget gets
      rect; no other item and no margin changes. The widget is compared
      without a null check, so a null widget re-places every widget-less item. */
    method SetAxesNormPos(widget: Option<Widget>, rect: RectF)
      modifies this
      ensures |items| == |old(items)|
      ensures forall i :: 0 <= i < |items| ==> items[i].item == old(items[i].item)
      ensures forall i :: 0 <= i < |items| ==>
        items[i].normRect == (if old(items[i].item.widget) == widget then rect else old(items[i].normRect))
      ensures left == old(left) && bottom == old(bottom) && right == old(right) && top == old(top)
      ensures nextItemId == old(nextItemId)
    {
      var s := items;
      for i := 0 to |s|
        invariant |s| == |old(items)|
        invariant forall k :: 0 <= k < |s| ==> s[k].item == old(items[k].item)
        invariant forall k :: 0 <= k < i ==>
          s[k].normRect == (if old(items[k].item.widget) == widget then rect else old(items[k].normRect))
        invariant forall k :: i <= k < |s| ==> s[k] == old(items[k])
      {
        if s[i].item.widget == widget {
          s := s[i := LayoutItem(s[i].item, rect)];
        }
      }
      items := s;
    }

    /** QwtFigureLayout::adjustLayout: if any margin lies outside [0,1] nothing
      changes; otherwise all four are stored, even when left + right >= 1. */
    method AdjustLayout(l: real, b: real, r: real, t: real)
      modifies this
      ensures (0.0 <= l <= 1.0 && 0.0 <= b <= 1.0 && 0.0 <= r <= 1.0 && 0.0 <= t <= 1.0) ==>
        left == l && bottom == b && right == r && top == t
      ensures !(0.0 <= l <= 1.0 && 0.0 <= b <= 1.0 && 0.0 <= r <= 1.0 && 0.0 <= t <= 1.0) ==>
        left == old(left) && bottom == old(bottom) && right == old(right) && top == old(top)
      ensures items == old(items) && nextItemId == old(nextItemId)
    {
      if l < 0.0 || l > 1.0 || b < 0.0 || b > 1.0 || r < 0.0 || r > 1.0 || t < 0.0 || t > 1.0 {
        return;
      }
      left, bottom, right, top := l, b, r, t;
    }

    /** QwtFigureLayout::widgetNormRect: the rectangle of the first item
      holding widget; the null rectangle for a null or absent widget. */
    method WidgetNormRect(widget: Option<Widget>) returns (r: RectF)
      ensures widget.None? ==> r == NullRectF
      ensures widget.Some? && widget in Widgets(items) ==>
        r == items[Algorithm.Find(Widgets(items), widget)].normRect
      ensures widget.Some? && widget !in Widgets(items) ==> r == NullRectF
    {
      if widget.None? {
        return NullRectF;
      }
      var i := 0;
      while i < |items|
        invariant 0 <= i <= |items|
        invariant forall k :: 0 <= k < i ==> items[k].item.widget != widget
      {
        if items[i].item.widget == widget {
          assert Algorithm.Find(Widgets(items), widget) == i;
          return items[i].normRect;
        }
        i := i + 1;
      }
      assert widget !in Widgets(items);
      return NullRectF;
    }
  }
}
