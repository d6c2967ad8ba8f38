/** QwtCanvasZoomer: a zoom stack of four-axis states with a cursor, redo
    truncation and an optional depth limit. Emitted zoomed() signals are
    appended to an event log; rescaling the plot is not modelled. */
module CanvasZoomer {
  import opened Types

  /** The default QwtInterval(): [0, -1], which is invalid. */
  const InvalidInterval := Interval(0.0, -1.0)

  /** QwtCanvasZoomState: one interval per axis; an axis the plot does not show
      keeps the invalid default interval. */
  datatype CanvasZoomState = CanvasZoomState(xBottom: Interval, xTop: Interval, yLeft: Interval, yRight: Interval)
  {
    /** QwtCanvasZoomState::isValid: at least one interval is valid. */
    predicate IsValid() {
      xBottom.IsValid() || xTop.IsValid() || yLeft.IsValid() || yRight.IsValid()
    }
  }

  /** The default-constructed state: every interval invalid. */
  const EmptyState := CanvasZoomState(InvalidInterval, InvalidInterval, InvalidInterval, InvalidInterval)

  /** QwtCanvasZoomState::operator==: all four intervals are equal. */
  function StatesEqual(a: CanvasZoomState, b: CanvasZoomState): (r: bool)
    ensures r <==> a == b
  {
    a.xBottom == b.xBottom && a.xTop == b.xTop && a.yLeft == b.yLeft && a.yRight == b.yRight
  }

  /** QwtCanvasZoomState::fromPlot: the scale range of every visible axis
      (visible and range indexed by axis position), the invalid interval for a
      hidden one. */
  function FromPlot(visible: seq<bool>, range: seq<Interval>): (s: CanvasZoomState)
    requires |visible| == 4 && |range| == 4
    ensures s.yLeft == (if visible[0] then range[0] else InvalidInterval)
    ensures s.yRight == (if visible[1] then range[1] else InvalidInterval)
    ensures s.xBottom == (if visible[2] then range[2] else InvalidInterval)
    ensures s.xTop == (if visible[3] then range[3] else InvalidInterval)
  {
    CanvasZoomState(
      if visible[2] then range[2] else InvalidInterval,
      if visible[3] then range[3] else InvalidInterval,
      if visible[0] then range[0] else InvalidInterval,
      if visible[1] then range[1] else InvalidInterval)
  }

  /** The shift of moveCurrentState: valid x intervals move by dx, valid y
      intervals by dy, invalid ones stay. */
  function Shifted(s: CanvasZoomState, dx: real, dy: real): (r: CanvasZoomState)
    ensures r.xBottom.IsValid() == s.xBottom.IsValid() && r.xTop.IsValid() == s.xTop.IsValid()
    ensures r.yLeft.IsValid() == s.yLeft.IsValid() && r.yRight.IsValid() == s.yRight.IsValid()
    ensures s.xBottom.IsValid() ==> r.xBottom.Width() == s.xBottom.Width() && r.xBottom.minValue == s.xBottom.minValue + dx
    ensures s.xTop.IsValid() ==> r.xTop.Width() == s.xTop.Width() && r.xTop.minValue == s.xTop.minValue + dx
    ensures s.yLeft.IsValid() ==> r.yLeft.Width() == s.yLeft.Width() && r.yLeft.minValue == s.yLeft.minValue + dy
    ensures s.yRight.IsValid() ==> r.yRight.Width() == s.yRight.Width() && r.yRight.minValue == s.yRight.minValue + dy
    ensures !s.xBottom.IsValid() ==> r.xBottom == s.xBottom
    ensures !s.xTop.IsValid() ==> r.xTop == s.xTop
    ensures !s.yLeft.IsValid() ==> r.yLeft == s.yLeft
    ensures !s.yRight.IsValid() ==> r.yRight == s.yRight
  {
    CanvasZoomState(
      if s.xBottom.IsValid() then Interval(s.xBottom.minValue + dx, s.xBottom.maxValue + dx) else s.xBottom,
      if s.xTop.IsValid() then Interval(s.xTop.minValue + dx, s.xTop.maxValue + dx) else s.xTop,
      if s.yLeft.IsValid() then Interval(s.yLeft.minValue + dy, s.yLeft.maxValue + dy) else s.yLeft,
      if s.yRight.IsValid() then Interval(s.yRight.minValue + dy, s.yRight.maxValue + dy) else s.yRight)
  }

  /** Shifting back undoes a shift. */
  lemma ShiftRoundTrip(s: CanvasZoomState, dx: real, dy: real)
    ensures Shifted(Shifted(s, dx, dy), -dx, -dy) == s
  {
  }

  /** qBound(0, v, hi) as the index clamp of zoom(int). */
  function ClampIndex(v: int, hi: int): int {
    if hi < v then (if hi < 0 then 0 else hi) else if v < 0 then 0 else v
  }

  /** The index setZoomStack uses, as written: an index below 0 or above the
      count becomes count - 1, but an index equal to the count is kept. */
  function SetZoomStackIndexAsWritten(count: int, index: int): (r: int)
    ensures 0 <= index <= count ==> r == index
    ensures count > 0 ==> 0 <= r <= count
  {
    if index < 0 || index > count then count - 1 else index
  }

  /** The as-written index lets count through, one past the last entry. */
  lemma SetZoomStackIndexOutOfRange()
    ensures SetZoomStackIndexAsWritten(3, 3) == 3
  {
  }

  /** The index setZoomStack evidently means: any index outside [0, count)
      becomes count - 1, so a valid index always results for a non-empty stack. */
  function SetZoomStackIndex(count: int, index: int): (r: int)
    requires count > 0
    ensures 0 <= r < count
    ensures 0 <= index < count ==> r == index
    ensures index != count ==> r == SetZoomStackIndexAsWritten(count, index)
  {
    if index < 0 || index >= count then count - 1 else index
  }

  // QRect arithmetic of accept(): a rectangle by its corners (x1, y1) and (x2, y2).

  /** C++ integer division by 2, which truncates toward zero. */
  function Half(v: int): int {
    if v >= 0 then v / 2 else -((-v) / 2)
  }

  /** QRect(p, q).normalized() in Qt 5: the corners are swapped on an axis only
      when x2 < x1 - 1 (resp. y2 < y1 - 1). Result: (x1, y1, x2, y2). */
  function Normalized(p: Point, q: Point): (r: (int, int, int, int))
    ensures r.2 - r.0 + 1 >= 0 && r.3 - r.1 + 1 >= 0
    ensures {r.0, r.2} == {p.x, q.x} && {r.1, r.3} == {p.y, q.y}
  {
    var (x1, x2) := if q.x < p.x - 1 then (q.x, p.x) else (p.x, q.x);
    var (y1, y2) := if q.y < p.y - 1 then (q.y, p.y) else (p.y, q.y);
    (x1, y1, x2, y2)
  }

  /** The size floor of accept(). */
  const MinZoomSize := 11

  /** One axis of accept(): the span [a1, a2] grown to at least MinZoomSize
      pixels (setSize(expandedTo)), then re-centred on the old centre (moveCenter). */
  function GrowAboutCentre(a1: int, a2: int): (r: (int, int))
    requires a2 - a1 + 1 >= 0
    ensures r.1 - r.0 + 1 == Max(a2 - a1 + 1, MinZoomSize)
    ensures r.0 <= Half(a1 + a2) <= r.1
    ensures (Half(a1 + a2) - r.0) - (r.1 - Half(a1 + a2)) in {0, -1}
  {
    var c := Half(a1 + a2);
    var size := Max(a2 - a1 + 1, MinZoomSize);
    var w := (a1 + size - 1) - a1;
    var n1 := c - w / 2;
    (n1, n1 + w)
  }

  /** QwtCanvasZoomer::accept: None (false, selection untouched) for fewer than
      two points or when both sides of the selected rectangle are below 2 pixels;
      otherwise the two corners of the rectangle grown to at least 11 x 11 about
      its centre. */
  function Accept(pa: seq<Point>): (r: Option<seq<Point>>)
    ensures |pa| < 2 ==> r == None
    ensures |pa| >= 2 ==>
      var n := Normalized(pa[0], pa[|pa| - 1]);
      (r == None <==> n.2 - n.0 + 1 < 2 && n.3 - n.1 + 1 < 2) &&
      (r.Some? ==>
         |r.value| == 2 &&
         r.value[1].x - r.value[0].x + 1 == Max(n.2 - n.0 + 1, MinZoomSize) &&
         r.value[1].y - r.value[0].y + 1 == Max(n.3 - n.1 + 1, MinZoomSize) &&
         r.value[0].x <= Half(n.0 + n.2) <= r.value[1].x &&
         r.value[0].y <= Half(n.1 + n.3) <= r.value[1].y)
  {
    if |pa| < 2 then None
    else
      var n := Normalized(pa[0], pa[|pa| - 1]);
      var minSize := 2;
      if n.2 - n.0 + 1 < minSize && n.3 - n.1 + 1 < minSize then None
      else
        var xs := GrowAboutCentre(n.0, n.2);
        var ys := GrowAboutCentre(n.1, n.3);
        Some([Point(xs.0, ys.0), Point(xs.1, ys.1)])
  }

  class QwtCanvasZoomer {
    var zoomStack: seq<CanvasZoomState>
    var zoomStateIndex: nat
    var maxStackDepth: int
    /** Arguments of the emitted zoomed() signals, oldest first. */
    var zoomed: seq<CanvasZoomState>

    /** The stack is never empty, the cursor is on an entry, and with a depth
        limit the stack holds at most limit + 1 states. */
    ghost predicate Valid()
      reads this
    {
      zoomStateIndex < |zoomStack| &&
      (maxStackDepth >= 0 ==> |zoomStack| <= maxStackDepth + 1)
    }

    /** QwtCanvasZoomer(canvas) on the canvas of a plot: no depth limit and the
        plot's current state as zoom base. */
    constructor (base: CanvasZoomState)
      ensures Valid()
      ensures zoomStack == [base] && zoomStateIndex == 0 && maxStackDepth == -1 && zoomed == []
    {
      maxStackDepth := -1;
      zoomStack := [base];
      zoomStateIndex := 0;
      zoomed := [];
    }

    /** QwtCanvasZoomer::zoomState: the state under the cursor. */
    function ZoomState(): (s: CanvasZoomState)
      reads this
      requires Valid()
      ensures s in zoomStack
    {
      zoomStack[zoomStateIndex]
    }

    /** QwtCanvasZoomer::zoomBase: the bottom of the stack. */
    function ZoomBase(): (s: CanvasZoomState)
      reads this
      requires Valid()
      ensures s in zoomStack
    {
      zoomStack[0]
    }

    /** QwtCanvasZoomer::setZoomBase: without a plot nothing changes; otherwise
        the stack becomes exactly the plot's current state, with the cursor on it. */
    method SetZoomBase(hasPlot: bool, base: CanvasZoomState)
      requires Valid()
      modifies this
      ensures Valid()
      ensures !hasPlot ==> zoomStack == old(zoomStack) && zoomStateIndex == old(zoomStateIndex)
      ensures hasPlot ==> zoomStack == [base] && zoomStateIndex == 0
      ensures maxStackDepth == old(maxStackDepth) && zoomed == old(zoomed)
    {
      if !hasPlot {
        return;
      }
      zoomStack := [];
      zoomStack := zoomStack + [base];
      zoomStateIndex := 0;
    }

    /** QwtCanvasZoomer::zoom(state): refused at the depth limit or when state
        is the current state; otherwise the entries above the cursor are
        discarded, state is pushed and becomes current, and zoomed(state) is
        emitted. */
    method ZoomTo(state: CanvasZoomState)
      requires Valid()
      modifies this
      ensures Valid()
      ensures var refused := (old(maxStackDepth) >= 0 && old(zoomStateIndex) >= old(maxStackDepth))
                             || state == old(zoomStack)[old(zoomStateIndex)];
        if refused then
          zoomStack == old(zoomStack) && zoomStateIndex == old(zoomStateIndex) && zoomed == old(zoomed)
        else
          zoomStack == old(zoomStack)[..old(zoomStateIndex) + 1] + [state] &&
          zoomStateIndex == old(zoomStateIndex) + 1 &&
          zoomed == old(zoomed) + [state]
      ensures maxStackDepth == old(maxStackDepth)
    {
      if maxStackDepth >= 0 && zoomStateIndex >= maxStackDepth {
        return;
      }
      if state != ZoomState() {
        var stack := zoomStack;
        var i := |stack| - 1;
        while i > zoomStateIndex
          invariant zoomStateIndex <= i < |stack| == i + 1
          invariant stack == zoomStack[..i + 1]
          decreases i
        {
          stack := stack[..|stack| - 1];
          i := i - 1;
        }
        zoomStack := stack + [state];
        zoomStateIndex := zoomStateIndex + 1;
        zoomed := zoomed + [state];
      }
    }

    /** QwtCanvasZoomer::zoom(int): offset 0 goes to the base, any other offset
        moves the cursor by offset clamped into [0, count - 1]; zoomed() is
        emitted only when the cursor moves. The stack is not touched. */
    method ZoomBy(offset: int)
      requires Valid()
      modifies this
      ensures Valid()
      ensures zoomStack == old(zoomStack) && maxStackDepth == old(maxStackDepth)
      ensures offset == 0 ==> zoomStateIndex == 0
      ensures offset != 0 ==>
        zoomStateIndex == ClampIndex(old(zoomStateIndex) + offset, |zoomStack| - 1)
      ensures offset != 0 ==> 0 <= zoomStateIndex <= |zoomStack| - 1
      ensures zoomed == if zoomStateIndex != old(zoomStateIndex) then old(zoomed) + [zoomStack[zoomStateIndex]] else old(zoomed)
    {
      var newIndex: int;
      if offset == 0 {
        newIndex := 0;
      } else {
        newIndex := zoomStateIndex + offset;
        newIndex := ClampIndex(newIndex, |zoomStack| - 1);
      }
      if newIndex != zoomStateIndex {
        zoomStateIndex := newIndex;
        zoomed := zoomed + [ZoomState()];
      }
    }

    /** QwtCanvasZoomer::setMaxStackDepth: stores the limit; with a limit d >= 0
        and more than d + 1 states, zooms out by the excess and then pops every
        entry above the cursor; the zoom out emits zoomed() with the new current
        state when the cursor moves. */
    method SetMaxStackDepth(depth: int)
      requires zoomStateIndex < |zoomStack|
      modifies this
      ensures Valid() && maxStackDepth == depth
      ensures depth < 0 || |old(zoomStack)| - 1 <= depth ==>
        zoomStack == old(zoomStack) && zoomStateIndex == old(zoomStateIndex) && zoomed == old(zoomed)
      ensures depth >= 0 && |old(zoomStack)| - 1 > depth ==>
        zoomStateIndex == ClampIndex(old(zoomStateIndex) - (|old(zoomStack)| - 1 - depth), |old(zoomStack)| - 1) &&
        zoomStack == old(zoomStack)[..zoomStateIndex + 1] &&
        zoomed == (if zoomStateIndex != old(zoomStateIndex)
                   then old(zoomed) + [old(zoomStack)[zoomStateIndex]] else old(zoomed))
    {
      maxStackDepth := depth;
      if depth >= 0 {
        var zoomOut := |zoomStack| - 1 - depth;
        if zoomOut > 0 {
          ZoomByUnchecked(-zoomOut);
          var stack := zoomStack;
          var i := |stack| - 1;
          while i > zoomStateIndex
            invariant zoomStateIndex <= i < |stack| == i + 1
            invariant stack == zoomStack[..i + 1]
            decreases i
          {
            stack := stack[..|stack| - 1];
            i := i - 1;
          }
          zoomStack := stack;
        }
      }
    }

    /** zoom(int) while the depth limit may momentarily be exceeded (inside
        setMaxStackDepth). */
    method ZoomByUnchecked(offset: int)
      requires zoomStateIndex < |zoomStack|
      modifies this`zoomStateIndex, this`zoomed
      ensures zoomStateIndex < |zoomStack|
      ensures offset == 0 ==> zoomStateIndex == 0
      ensures offset != 0 ==> zoomStateIndex == ClampIndex(old(zoomStateIndex) + offset, |zoomStack| - 1)
      ensures zoomed == if zoomStateIndex != old(zoomStateIndex) then old(zoomed) + [zoomStack[zoomStateIndex]] else old(zoomed)
    {
      var newIndex: int;
      if offset == 0 {
        newIndex := 0;
      } else {
        newIndex := ClampIndex(zoomStateIndex + offset, |zoomStack| - 1);
      }
      if newIndex != zoomStateIndex {
        zoomStateIndex := newIndex;
        zoomed := zoomed + [zoomStack[zoomStateIndex]];
      }
    }

    /** QwtCanvasZoomer::setZoomStack with the index repaired by
        SetZoomStackIndex: an empty stack, or one deeper than the limit, is
        ignored; otherwise the stack and index are replaced, and zoomed() is
        emitted when the new current state differs from the old one. */
    method SetZoomStack(stack: seq<CanvasZoomState>, index: int)
      requires Valid()
      modifies this
      ensures Valid() && maxStackDepth == old(maxStackDepth)
      ensures |stack| == 0 || (maxStackDepth >= 0 && |stack| > maxStackDepth) ==>
        zoomStack == old(zoomStack) && zoomStateIndex == old(zoomStateIndex) && zoomed == old(zoomed)
      ensures |stack| > 0 && !(maxStackDepth >= 0 && |stack| > maxStackDepth) ==>
        zoomStack == stack && zoomStateIndex == SetZoomStackIndex(|stack|, index) &&
        zoomed == (if stack[zoomStateIndex] != old(zoomStack)[old(zoomStateIndex)]
                   then old(zoomed) + [stack[zoomStateIndex]] else old(zoomed))
    {
      if |stack| == 0 {
        return;
      }
      if maxStackDepth >= 0 && |stack| > maxStackDepth {
        return;
      }
      var i := SetZoomStackIndex(|stack|, index);
      var doRescale := stack[i] != ZoomState();
      zoomStack := stack;
      zoomStateIndex := i;
      if doRescale {
        zoomed := zoomed + [ZoomState()];
      }
    }

    /** QwtCanvasZoomer::moveCurrentState: the current entry is replaced by its
        shift (and zoomed() emitted) when the shift changes it; the stack keeps
        its size and every other entry. */
    method MoveCurrentState(dx: real, dy: real)
      requires Valid()
      modifies this
      ensures Valid()
      ensures zoomStateIndex == old(zoomStateIndex) && maxStackDepth == old(maxStackDepth)
      ensures zoomStack == old(zoomStack)[zoomStateIndex := Shifted(old(zoomStack)[zoomStateIndex], dx, dy)]
      ensures zoomed == if zoomStack != old(zoomStack) then old(zoomed) + [zoomStack[zoomStateIndex]] else old(zoomed)
    {
      var currentState := ZoomState();
      var newState := Shifted(currentState, dx, dy);
      if newState != currentState {
        zoomStack := zoomStack[zoomStateIndex := newState];
        zoomed := zoomed + [newState];
      } else {
        assert zoomStack == zoomStack[zoomStateIndex := newState];
      }
    }

    /** QwtCanvasZoomer::begin: false where the zoomer refuses to start a
        selection, at the depth limit. */
    function CanBegin(): (ok: bool)
      reads this
      ensures !ok <==> maxStackDepth >= 0 && zoomStateIndex >= maxStackDepth
    {
      !(maxStackDepth >= 0 && zoomStateIndex >= maxStackDepth)
    }
  }

  /** Zooming in and then zooming out by one restores the cursor, keeps the
      new state on the stack for redo, and a second zoom in by one returns to it. */
  method ZoomInOutRedo(z: QwtCanvasZoomer, s: CanvasZoomState)
    requires z.Valid() && z.CanBegin() && s != z.ZoomState()
    modifies z
    ensures z.Valid() && z.zoomStateIndex == old(z.zoomStateIndex) + 1 && z.ZoomState() == s
  {
    ghost var i0 := z.zoomStateIndex;
    z.ZoomTo(s);
    z.ZoomBy(-1);
    assert z.zoomStateIndex == i0;
    z.ZoomBy(1);
  }
}
