/** QwtFigureWidgetOverlay: the editing overlay of a figure. It classifies the
    mouse position against the active widget's frame, cycles the active
    widget, and turns a drag into a new normalised rectangle. Painting, cursor
    bitmaps and the figure's mouse-tracking attributes are not modelled; the
    activeWidgetChanged and widgetNormGeometryChanged signals are logged. */
module FigureOverlay {
  import opened Types
  import Algorithm
  import opened FigureLayout
  import opened Figure

  datatype ControlType =
    | ControlLineTop | ControlLineBottom | ControlLineLeft | ControlLineRight
    | ControlPointTopLeft | ControlPointTopRight | ControlPointBottomLeft | ControlPointBottomRight
    | Inner | OutSide

  datatype CursorShape = ArrowCursor | SizeVerCursor | SizeHorCursor | SizeBDiagCursor | SizeFDiagCursor | SizeAllCursor

  datatype MouseButton = LeftButton | RightButton | MiddleButton

  datatype Key = KeyReturn | KeyUp | KeyLeft | KeyRight | KeyDown | OtherKey(code: int)

  datatype OverlayEvent =
    | ActiveWidgetChanged(oldWidget: Option<Widget>, newWidget: Option<Widget>)
    | WidgetNormGeometryChanged(widget: Widget, oldRect: RectF, newRect: RectF)

  /** QRect::contains(QPoint, proper) as Qt 5 computes it: a rectangle whose
      right edge lies left of left-1 is read with its edges swapped; a proper
      test excludes the edges. */
  predicate QRectContains(r: Rect, p: Point, proper: bool) {
    var l := if r.Right() < r.left - 1 then r.Right() else r.left;
    var rr := if r.Right() < r.left - 1 then r.left else r.Right();
    var t := if r.Bottom() < r.top - 1 then r.Bottom() else r.top;
    var b := if r.Bottom() < r.top - 1 then r.top else r.Bottom();
    if proper then l < p.x < rr && t < p.y < b
    else l <= p.x <= rr && t <= p.y <= b
  }

  /** QRect::adjusted(-err, -err, err, err): every edge pushed out by err. */
  function Grown(r: Rect, err: int): (g: Rect)
    ensures g.left == r.left - err && g.Right() == r.Right() + err
    ensures g.top == r.top - err && g.Bottom() == r.Bottom() + err
  {
    Rect(r.left - err, r.top - err, r.width + 2 * err, r.height + 2 * err)
  }

  /** QwtFigureWidgetOverlay::controlTypeToCursor. */
  function ControlTypeToCursor(ct: ControlType): (c: CursorShape)
    ensures c == SizeVerCursor <==> ct == ControlLineTop || ct == ControlLineBottom
    ensures c == SizeHorCursor <==> ct == ControlLineLeft || ct == ControlLineRight
    ensures c == SizeFDiagCursor <==> ct == ControlPointTopLeft || ct == ControlPointBottomRight
    ensures c == SizeBDiagCursor <==> ct == ControlPointTopRight || ct == ControlPointBottomLeft
    ensures c == SizeAllCursor <==> ct == Inner
    ensures c == ArrowCursor <==> ct == OutSide
  {
    match ct
    case ControlLineTop => SizeVerCursor
    case ControlLineBottom => SizeVerCursor
    case ControlLineLeft => SizeHorCursor
    case ControlLineRight => SizeHorCursor
    case ControlPointTopLeft => SizeFDiagCursor
    case ControlPointBottomRight => SizeFDiagCursor
    case ControlPointTopRight => SizeBDiagCursor
    case ControlPointBottomLeft => SizeBDiagCursor
    case Inner => SizeAllCursor
    case OutSide => ArrowCursor
  }

  /** QwtFigureWidgetOverlay::getPositionControlType: where pos lies relative
      to region with a tolerance of err pixels on each side of every edge. */
  function GetPositionControlType(pos: Point, region: Rect, err: int): (ct: ControlType)
    ensures ct == OutSide <==> !QRectContains(Grown(region, err), pos, false)
    ensures QRectContains(Grown(region, err), pos, false) && pos.x < region.left + err ==>
      ct == (if pos.y < region.top + err then ControlPointTopLeft
             else if pos.y > region.Bottom() - err then ControlPointBottomLeft
             else ControlLineLeft)
    ensures QRectContains(Grown(region, err), pos, false) && region.left + err <= pos.x && pos.x > region.Right() - err ==>
      ct == (if pos.y < region.top + err then ControlPointTopRight
             else if pos.y > region.Bottom() - err then ControlPointBottomRight
             else ControlLineRight)
    ensures QRectContains(Grown(region, err), pos, false) && region.left + err <= pos.x <= region.Right() - err ==>
      ct == (if pos.y < region.top + err then ControlLineTop
             else if pos.y > region.Bottom() - err then ControlLineBottom
             else Inner)
    ensures ct == Inner <==>
      QRectContains(Grown(region, err), pos, false) &&
      region.left + err <= pos.x <= region.Right() - err && region.top + err <= pos.y <= region.Bottom() - err
  {
    if !QRectContains(Grown(region, err), pos, false) then OutSide
    else if pos.x < region.left + err then
      if pos.y < region.top + err then ControlPointTopLeft
      else if pos.y > region.Bottom() - err then ControlPointBottomLeft
      else ControlLineLeft
    else if pos.x > region.Right() - err then
      if pos.y < region.top + err then ControlPointTopRight
      else if pos.y > region.Bottom() - err then ControlPointBottomRight
      else ControlLineRight
    else if pos.y < region.top + err then
      if pos.x < region.left + err then ControlPointTopLeft
      else if pos.x > region.Right() - err then ControlPointTopRight
      else ControlLineTop
    else if pos.y > region.Bottom() - err then
      if pos.x < region.left + err then ControlPointBottomLeft
      else if pos.x > region.Right() - err then ControlPointBottomRight
      else ControlLineBottom
    else Inner
  }

  /** QwtFigureWidgetOverlay::isPointInRectEdget as written: its first branch
      asks for x < left - err, which the containment test just excluded. */
  function IsPointInRectEdgeAsWritten(pos: Point, region: Rect, err: int): (r: bool)
    ensures r ==> QRectContains(Grown(region, err), pos, false)
    ensures r ==>
      pos.x < region.left - err || region.Right() - err < pos.x < region.Right() + err ||
      region.top - err < pos.y < region.top + err || region.Bottom() - err < pos.y < region.Bottom() + err
  {
    if !QRectContains(Grown(region, err), pos, false) then false
    else if pos.x < region.left - err && pos.x < region.left + err then true
    else if pos.x > region.Right() - err && pos.x < region.Right() + err then true
    else if pos.y > region.top - err && pos.y < region.top + err then true
    else if pos.y > region.Bottom() - err && pos.y < region.Bottom() + err then true
    else false
  }

  /** For a normalised region the left-edge branch of the as-written test can
      never fire: a point it would accept is already rejected as outside. */
  lemma {:induction false} LeftBranchUnreachable(pos: Point, region: Rect, err: int)
    requires err >= 0 && region.width >= 0
    requires QRectContains(Grown(region, err), pos, false)
    ensures !(pos.x < region.left - err)
  {
    var g := Grown(region, err);
    assert !(g.Right() < g.left - 1);
  }

  /** A point on the left edge of a 100x100 region, half-way down, is not
      reported as being on an edge. */
  lemma IsPointInRectEdgeAsWrittenMissesLeftEdge()
    ensures !IsPointInRectEdgeAsWritten(Point(0, 50), Rect(0, 0, 100, 100), 4)
  {
  }

  /** isPointInRectEdget as evidently intended: inside the grown region and
      strictly within err of one of the four edges, the left one included. */
  function IsPointInRectEdge(pos: Point, region: Rect, err: int): (r: bool)
    ensures r <==>
      QRectContains(Grown(region, err), pos, false) &&
      (region.left - err < pos.x < region.left + err || region.Right() - err < pos.x < region.Right() + err ||
       region.top - err < pos.y < region.top + err || region.Bottom() - err < pos.y < region.Bottom() + err)
    ensures err >= 0 && region.width >= 0 && IsPointInRectEdgeAsWritten(pos, region, err) ==> r
  {
    assert err >= 0 && region.width >= 0 && QRectContains(Grown(region, err), pos, false) ==> !(pos.x < region.left - err) by {
      if err >= 0 && region.width >= 0 && QRectContains(Grown(region, err), pos, false) {
        LeftBranchUnreachable(pos, region, err);
      }
    }
    if !QRectContains(Grown(region, err), pos, false) then false
    else if pos.x > region.left - err && pos.x < region.left + err then true
    else if pos.x > region.Right() - err && pos.x < region.Right() + err then true
    else if pos.y > region.top - err && pos.y < region.top + err then true
    else if pos.y > region.Bottom() - err && pos.y < region.Bottom() + err then true
    else false
  }

  /** Every point strictly within err of the left edge, and vertically inside
      the grown region, is on an edge; the as-written test fails this at
      (0, 50) for the region (0, 0, 100, 100) and err 4. */
  lemma {:induction false} LeftEdgeDetected(pos: Point, region: Rect, err: int)
    requires err >= 0 && region.width >= 0 && region.height >= 0
    requires region.left - err < pos.x < region.left + err
    requires region.top - err <= pos.y <= region.Bottom() + err
    ensures IsPointInRectEdge(pos, region, err)
  {
    var g := Grown(region, err);
    assert !(g.Right() < g.left - 1) && !(g.Bottom() < g.top - 1);
  }

  /** The control types that move the left, right, top and bottom edges. */
  predicate MovesLeft(ct: ControlType) { ct == ControlLineLeft || ct == ControlPointTopLeft || ct == ControlPointBottomLeft }
  predicate MovesRight(ct: ControlType) { ct == ControlLineRight || ct == ControlPointTopRight || ct == ControlPointBottomRight }
  predicate MovesTop(ct: ControlType) { ct == ControlLineTop || ct == ControlPointTopLeft || ct == ControlPointTopRight }
  predicate MovesBottom(ct: ControlType) { ct == ControlLineBottom || ct == ControlPointBottomLeft || ct == ControlPointBottomRight }

  /** The rectangle onHoverMoveEvent proposes while resizing: from the
      rectangle at press time, with the mouse offset as fractions dw, dh of the
      figure size. QRectF::setX/setY move an edge and keep the opposite one.
      None for OutSide, where the handler gives up. */
  function ResizedNormRect(ct: ControlType, o: RectF, dw: real, dh: real): (r: Option<RectF>)
    ensures r.None? <==> ct == OutSide
    ensures MovesLeft(ct) ==> r.value.x == o.x + dw && r.value.Right() == o.Right()
    ensures MovesRight(ct) ==> r.value.x == o.x && r.value.Right() == o.Right() + dw
    ensures (ct == ControlLineTop || ct == ControlLineBottom) ==> r.value.x == o.x && r.value.width == o.width
    ensures MovesTop(ct) ==> r.value.y == o.y + dh && r.value.Bottom() == o.Bottom()
    ensures MovesBottom(ct) ==> r.value.y == o.y && r.value.Bottom() == o.Bottom() + dh
    ensures (ct == ControlLineLeft || ct == ControlLineRight) ==> r.value.y == o.y && r.value.height == o.height
    ensures ct == Inner ==> r == Some(RectF(o.x + dw, o.y + dh, o.width, o.height))
  {
    match ct
    case ControlLineTop => Some(SetHeight(SetTop(o, o.y + dh), o.height - dh))
    case ControlLineBottom => Some(SetHeight(o, o.height + dh))
    case ControlLineLeft => Some(SetWidth(SetLeft(o, o.x + dw), o.width - dw))
    case ControlLineRight => Some(SetWidth(o, o.width + dw))
    case ControlPointTopLeft =>
      Some(SetHeight(SetWidth(SetTop(SetLeft(o, o.x + dw), o.y + dh), o.width - dw), o.height - dh))
    case ControlPointTopRight =>
      Some(SetHeight(SetWidth(SetTop(o, o.y + dh), o.width + dw), o.height - dh))
    case ControlPointBottomLeft =>
      Some(SetHeight(SetWidth(SetLeft(o, o.x + dw), o.width - dw), o.height + dh))
    case ControlPointBottomRight =>
      Some(SetHeight(SetWidth(o, o.width + dw), o.height + dh))
    case Inner => Some(RectF(o.x + dw, o.y + dh, o.width, o.height))
    case OutSide => None
  }

  /** Dragging back by the opposite offset with the same handle restores the
      rectangle the drag started from. */
  lemma {:induction false} ResizeUndo(ct: ControlType, o: RectF, dw: real, dh: real)
    requires ct != OutSide
    ensures ResizedNormRect(ct, ResizedNormRect(ct, o, dw, dh).value, -dw, -dh) == Some(o)
  {
    var r := ResizedNormRect(ct, o, dw, dh).value;
    var r2 := ResizedNormRect(ct, r, -dw, -dh).value;
    assert r2.x == o.x && r2.y == o.y;
    assert r2.width == o.width && r2.height == o.height;
  }

  /** The children except one widget, in order (QList::removeAll). */
  function Without(s: seq<Widget>, x: Widget): (r: seq<Widget>)
    ensures |r| <= |s|
    ensures forall w :: w in r <==> w in s && w != x
  {
    if |s| == 0 then []
    else if s[0] == x then Without(s[1..], x)
    else [s[0]] + Without(s[1..], x)
  }

  /** The widgets that are not parasite plots, in order (std::remove_if
      followed by erase). */
  function WithoutParasites(s: seq<Widget>): (r: seq<Widget>)
    ensures |r| <= |s|
    ensures forall w :: w in r <==> w in s && !(w.isPlot && w.isParasite)
  {
    if |s| == 0 then []
    else if s[0].isPlot && s[0].isParasite then WithoutParasites(s[1..])
    else [s[0]] + WithoutParasites(s[1..])
  }

  /** The candidates as non-null widget pointers. */
  function Somes(s: seq<Widget>): (r: seq<Option<Widget>>)
    ensures |r| == |s| && forall i :: 0 <= i < |s| ==> r[i] == Some(s[i])
  {
    seq(|s|, i requires 0 <= i < |s| => Some(s[i]))
  }

  /** The widget qwtSelectNextIterator picks among candidates, or null when
      there are none. */
  function NextAmong(cands: seq<Widget>, current: Option<Widget>, forward: bool): (r: Option<Widget>)
    ensures r.None? <==> |cands| == 0
    ensures r.Some? ==> r.value in cands
  {
    if |cands| == 0 then None
    else Some(cands[Algorithm.SelectNext(Somes(cands), current, forward)])
  }

  /** What selectNextWidget selects: a direct child of the figure other than
      the overlay and other than a parasite plot, or null when none is left. */
  function SelectedWidget(children: seq<Widget>, self: Widget, current: Option<Widget>, forward: bool): (r: Option<Widget>)
    ensures r.Some? ==> r.value in children && r.value != self && !(r.value.isPlot && r.value.isParasite)
    ensures r.None? <==> forall w :: w in children ==> w == self || (w.isPlot && w.isParasite)
  {
    var ws := WithoutParasites(Without(children, self));
    assert forall w :: w in children && w != self && !(w.isPlot && w.isParasite) ==> w in ws;
    NextAmong(ws, current, forward)
  }

  /** Cycling forward through the selectable widgets visits each of them:
      the successor of the widget before position k is the widget at k. */
  lemma {:induction false} SelectNextWidgetVisitsAll(cands: seq<Widget>, k: nat)
    requires k < |cands| && Algorithm.Distinct(cands)
    ensures NextAmong(cands, Some(cands[if k == 0 then |cands| - 1 else k - 1]), true) == Some(cands[k])
  {
    var s := Somes(cands);
    assert Algorithm.Distinct(s) by {
      forall i, j | 0 <= i < j < |s| ensures s[i] != s[j] {
        assert cands[i] != cands[j];
      }
    }
    Algorithm.ForwardReachesEvery(s, k);
  }

  /** The first plot, in top-down order, whose frame properly contains pos. */
  function HitPlot(plots: seq<(Widget, Rect)>, pos: Point): (r: Option<Widget>)
    ensures r.Some? ==> exists i :: 0 <= i < |plots| && plots[i].0 == r.value && QRectContains(plots[i].1, pos, true)
    ensures r.None? <==> forall i :: 0 <= i < |plots| ==> !QRectContains(plots[i].1, pos, true)
  {
    if |plots| == 0 then None
    else if QRectContains(plots[0].1, pos, true) then Some(plots[0].0)
    else
      var r := HitPlot(plots[1..], pos);
      assert forall i :: 1 <= i < |plots| ==> plots[i] == plots[1..][i - 1];
      r
  }

  class QwtFigureWidgetOverlay {
    const fig: QwtFigure
    /** The overlay's own widget, one of the figure's children. */
    const self: Widget
    var activeWidget: Option<Widget>
    var isStartResize: bool
    var controlType: ControlType
    var lastMousePressPos: Point
    var oldNormRect: RectF
    var willSetNormRect: RectF
    /** The cursor last set on the figure. */
    var cursor: CursorShape
    var funSelectCurrentPlot: bool
    var funResizePlot: bool
    var events: seq<OverlayEvent>

    /** The overlay starts on the figure's current axes; without one it
      selects the next plot, and without plots the next child widget. */
    constructor(f: QwtFigure, me: Widget, children: seq<Widget>)
      ensures fig == f && self == me
      ensures !isStartResize && controlType == OutSide && funSelectCurrentPlot && funResizePlot
      ensures f.currentAxes.Some? ==> activeWidget == f.currentAxes
      ensures f.currentAxes.None? && |PlotsIn(f.lay.items)| > 0 ==>
        activeWidget == NextAmong(PlotsIn(f.lay.items), None, true)
      ensures f.currentAxes.None? && |PlotsIn(f.lay.items)| == 0 ==>
        activeWidget == SelectedWidget(children, me, None, true)
    {
      fig := f;
      self := me;
      activeWidget := None;
      isStartResize := false;
      controlType := OutSide;
      lastMousePressPos := Point(0, 0);
      oldNormRect := NullRectF;
      willSetNormRect := NullRectF;
      cursor := ArrowCursor;
      funSelectCurrentPlot, funResizePlot := true, true;
      events := [];
      new;
      var gca := f.currentAxes;
      if gca.Some? {
        SetActiveWidget(gca);
      } else {
        SelectNextPlot(true);
        if activeWidget.None? {
          SelectNextWidget(children, true);
        }
      }
    }

    /** QwtFigureWidgetOverlay::setActiveWidget: nothing happens when w is
      already active; otherwise w becomes active and (old, new) is reported. */
    method SetActiveWidget(w: Option<Widget>)
      modifies this
      ensures activeWidget == w
      ensures w == old(activeWidget) ==> events == old(events)
      ensures w != old(activeWidget) ==> events == old(events) + [ActiveWidgetChanged(old(activeWidget), w)]
      ensures isStartResize == old(isStartResize) && controlType == old(controlType)
      ensures willSetNormRect == old(willSetNormRect) && oldNormRect == old(oldNormRect)
      ensures lastMousePressPos == old(lastMousePressPos) && cursor == old(cursor)
      ensures funSelectCurrentPlot == old(funSelectCurrentPlot) && funResizePlot == old(funResizePlot)
    {
      var oldact := activeWidget;
      if w == oldact {
        return;
      }
      activeWidget := w;
      events := events + [ActiveWidgetChanged(oldact, w)];
    }

    /** QwtFigureWidgetOverlay::selectNextWidget over the figure's direct
      children (given in child order). */
    method SelectNextWidget(children: seq<Widget>, forward: bool)
      modifies this
      ensures activeWidget == SelectedWidget(children, self, old(activeWidget), forward)
      ensures isStartResize == old(isStartResize) && controlType == old(controlType)
      ensures willSetNormRect == old(willSetNormRect) && oldNormRect == old(oldNormRect)
      ensures lastMousePressPos == old(lastMousePressPos) && cursor == old(cursor)
      ensures funSelectCurrentPlot == old(funSelectCurrentPlot) && funResizePlot == old(funResizePlot)
    {
      var ws := Without(children, self);
      if |ws| == 0 {
        SetActiveWidget(None);
        return;
      }
      var selectable := WithoutParasites(ws);
      var next := NextAmong(selectable, activeWidget, forward);
      SetActiveWidget(next);
    }

    /** QwtFigureWidgetOverlay::selectNextPlot: cycles over the figure's plots;
      a non-plot active widget counts as no current plot. */
    method SelectNextPlot(forward: bool)
      modifies this
      ensures |PlotsIn(fig.lay.items)| == 0 ==> activeWidget == None
      ensures |PlotsIn(fig.lay.items)| > 0 ==>
        activeWidget == NextAmong(PlotsIn(fig.lay.items),
                                  if old(activeWidget).Some? && old(activeWidget).value.isPlot then old(activeWidget) else None,
                                  forward)
      ensures isStartResize == old(isStartResize) && controlType == old(controlType)
      ensures willSetNormRect == old(willSetNormRect) && oldNormRect == old(oldNormRect)
      ensures lastMousePressPos == old(lastMousePressPos) && cursor == old(cursor)
      ensures funSelectCurrentPlot == old(funSelectCurrentPlot) && funResizePlot == old(funResizePlot)
    {
      var ws := fig.AllAxes();
      if |ws| == 0 {
        SetActiveWidget(None);
        return;
      }
      var current := if activeWidget.Some? && activeWidget.value.isPlot then activeWidget else None;
      SetActiveWidget(NextAmong(ws, current, forward));
    }

    /** QwtFigureWidgetOverlay::onKeyPressedEvent: Return, Up and Left select
      forward, Right and Down backward; any other key is not consumed and
      changes nothing. */
    method OnKeyPressed(key: Key, children: seq<Widget>) returns (consumed: bool)
      modifies this
      ensures consumed <==> !key.OtherKey?
      ensures (key == KeyReturn || key == KeyUp || key == KeyLeft) ==>
        activeWidget == SelectedWidget(children, self, old(activeWidget), true)
      ensures (key == KeyRight || key == KeyDown) ==>
        activeWidget == SelectedWidget(children, self, old(activeWidget), false)
      ensures key.OtherKey? ==> activeWidget == old(activeWidget) && events == old(events)
      ensures isStartResize == old(isStartResize) && willSetNormRect == old(willSetNormRect)
    {
      match key {
        case KeyReturn => SelectNextWidget(children, true);
        case KeyUp => SelectNextWidget(children, true);
        case KeyLeft => SelectNextWidget(children, true);
        case KeyRight => SelectNextWidget(children, false);
        case KeyDown => SelectNextWidget(children, false);
        case OtherKey(_) => return false;
      }
      return true;
    }

    /** QwtFigureWidgetOverlay::onMouseMoveEvent: mouse moves are swallowed
      only while a resize is in progress on an active widget. */
    function OnMouseMove(): (consumed: bool)
      reads this
      ensures consumed <==> activeWidget.Some? && isStartResize
    {
      activeWidget.Some? && isStartResize
    }

    /** QwtFigureWidgetOverlay::onMousePressedEvent. plots lists the figure's
      plots from the top of the z-order down with their frame geometry;
      activeFrame is the active widget's frame geometry. Only a left press
      does anything. Off the active widget's grown frame (or with no active
      widget) a press on a plot activates it. On the frame it starts a
      resize with the handle under the mouse, saving the active widget's
      normalised rect as the rect the resize starts from. */
    method OnMousePressed(button: MouseButton, pos: Point, plots: seq<(Widget, Rect)>, activeFrame: Rect)
      returns (consumed: bool)
      modifies this
      ensures button != LeftButton || |plots| == 0 ==> !consumed && activeWidget == old(activeWidget) && !(isStartResize && !old(isStartResize))
      ensures (button == LeftButton && |plots| > 0 &&
               (old(activeWidget).None? || GetPositionControlType(pos, activeFrame, 4) == OutSide)) ==>
        consumed == HitPlot(plots, pos).Some? &&
        activeWidget == (if HitPlot(plots, pos).Some? then HitPlot(plots, pos) else old(activeWidget)) &&
        isStartResize == old(isStartResize)
      ensures (button == LeftButton && |plots| > 0 &&
               old(activeWidget).Some? && GetPositionControlType(pos, activeFrame, 4) != OutSide) ==>
        consumed && isStartResize && activeWidget == old(activeWidget) &&
        controlType == GetPositionControlType(pos, activeFrame, 4) &&
        lastMousePressPos == pos && willSetNormRect == NullRectF &&
        oldNormRect == (if old(activeWidget) in Widgets(fig.lay.items)
                        then fig.lay.items[Algorithm.Find(Widgets(fig.lay.items), old(activeWidget))].normRect
                        else NullRectF)
    {
      if button != LeftButton {
        return false;
      }
      if |plots| == 0 {
        return false;
      }
      var hitPlot: Option<Widget> := None;
      var i := 0;
      while i < |plots|
        invariant 0 <= i <= |plots|
        invariant forall k :: 0 <= k < i ==> !QRectContains(plots[k].1, pos, true)
        invariant hitPlot == None
      {
        if QRectContains(plots[i].1, pos, true) {
          hitPlot := Some(plots[i].0);
          assert HitPlot(plots[i..], pos) == hitPlot;
          HitPlotSkip(plots, pos, i);
          break;
        }
        i := i + 1;
      }
      if hitPlot.None? {
        assert HitPlot(plots, pos) == None;
      }
      if activeWidget.None? {
        if hitPlot.Some? {
          SetActiveWidget(hitPlot);
          return true;
        }
        return false;
      }
      var ct := GetPositionControlType(pos, activeFrame, 4);
      if ct == OutSide {
        if hitPlot.Some? {
          SetActiveWidget(hitPlot);
          return true;
        }
        return false;
      }
      oldNormRect := fig.lay.WidgetNormRect(activeWidget);
      lastMousePressPos := pos;
      isStartResize := true;
      controlType := ct;
      willSetNormRect := NullRectF;
      return true;
    }

    /** QwtFigureWidgetOverlay::onHoverMoveEvent. figSize is the figure's size
      and activeFrame the active widget's frame geometry. While resizing, the
      proposed rectangle follows the offset from the press position (in
      fractions of the figure size); otherwise the handle under the mouse is
      tracked and the cursor changes with it. */
    method OnHoverMove(pos: Point, figSize: Size, activeFrame: Rect) returns (consumed: bool)
      requires figSize.width > 0 && figSize.height > 0
      modifies this
      ensures old(activeWidget).None? ==> !consumed && willSetNormRect == old(willSetNormRect) && controlType == old(controlType)
      ensures old(activeWidget).Some? && old(isStartResize) ==>
        var r := ResizedNormRect(old(controlType), old(oldNormRect),
                                 (pos.x - old(lastMousePressPos).x) as real / figSize.width as real,
                                 (pos.y - old(lastMousePressPos).y) as real / figSize.height as real);
        consumed == r.Some? && willSetNormRect == (if r.Some? then r.value else old(willSetNormRect)) &&
        controlType == old(controlType)
      ensures old(activeWidget).Some? && !old(isStartResize) ==>
        consumed && willSetNormRect == old(willSetNormRect) &&
        controlType == GetPositionControlType(pos, activeFrame, 4) &&
        (controlType != old(controlType) ==> cursor == ControlTypeToCursor(controlType))
      ensures activeWidget == old(activeWidget) && isStartResize == old(isStartResize) && events == old(events)
    {
      if activeWidget.None? {
        return false;
      }
      if isStartResize {
        var dw := (pos.x - lastMousePressPos.x) as real / figSize.width as real;
        var dh := (pos.y - lastMousePressPos.y) as real / figSize.height as real;
        var r := ResizedNormRect(controlType, oldNormRect, dw, dh);
        if r.None? {
          return false;
        }
        willSetNormRect := r.value;
        return true;
      }
      var ct := GetPositionControlType(pos, activeFrame, 4);
      if controlType != ct {
        cursor := ControlTypeToCursor(ct);
        controlType := ct;
      }
      return true;
    }

    /** QwtFigureWidgetOverlay::onMouseReleaseEvent: every release is consumed.
      A left release ends the resize; when a valid rectangle was proposed and
      a widget is active, the change (old, new) is reported. Applying the
      rectangle through the figure is not part of this model. */
    method OnMouseRelease(button: MouseButton) returns (consumed: bool)
      modifies this
      ensures consumed
      ensures button != LeftButton ==> isStartResize == old(isStartResize) && events == old(events)
      ensures button == LeftButton ==> !isStartResize
      ensures button == LeftButton && old(isStartResize) && old(willSetNormRect).IsValid() && old(activeWidget).Some? ==>
        events == old(events) + [WidgetNormGeometryChanged(old(activeWidget).value, old(oldNormRect), old(willSetNormRect))]
      ensures !(button == LeftButton && old(isStartResize) && old(willSetNormRect).IsValid() && old(activeWidget).Some?) ==>
        events == old(events)
      ensures activeWidget == old(activeWidget) && willSetNormRect == old(willSetNormRect)
    {
      if button == LeftButton {
        if !willSetNormRect.IsValid() {
          isStartResize := false;
          return true;
        }
        if isStartResize {
          isStartResize := false;
          if activeWidget.Some? {
            events := events + [WidgetNormGeometryChanged(activeWidget.value, oldNormRect, willSetNormRect)];
            return true;
          }
        }
      }
      return true;
    }
  }

  /** When no plot before position i is hit, the first hit of the whole list
      is the first hit of its tail from i. */
  lemma {:induction false} HitPlotSkip(plots: seq<(Widget, Rect)>, pos: Point, i: nat)
    requires i <= |plots|
    requires forall k :: 0 <= k < i ==> !QRectContains(plots[k].1, pos, true)
    ensures HitPlot(plots, pos) == HitPlot(plots[i..], pos)
    decreases i
  {
    if i > 0 {
      assert plots[1..][i - 1..] == plots[i..];
      HitPlotSkip(plots[1..], pos, i - 1);
    }
  }
}
