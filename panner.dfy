/** QwtPlotPanner: a picker that pans the plot while the mouse is dragged.
    The picker's own machinery is reduced to its active flag; the tracker
    position is passed to begin. Emitted moved/panned signals are logged,
    and moveCanvas is a pure update of the four axes' scale bounds. */
module Panner {
  import opened Types
  import Axis

  const LeftButton: nat := 1
  const NoModifier: nat := 0

  /** The initial (and the reset) value of both positions. */
  const Unset: Point := Point(-1, -1)

  function Delta(from: Point, to: Point): Point
  {
    Point(to.x - from.x, to.y - from.y)
  }

  function Plus(a: Point, b: Point): Point
  {
    Point(a.x + b.x, a.y + b.y)
  }

  /** The offset move and end compute: the difference of the positions,
      with the component of a disabled orientation forced to 0. */
  function MaskedDelta(from: Point, to: Point, orientations: set<Orientation>): (d: Point)
    ensures Horizontal in orientations ==> d.x == to.x - from.x
    ensures Horizontal !in orientations ==> d.x == 0
    ensures Vertical in orientations ==> d.y == to.y - from.y
    ensures Vertical !in orientations ==> d.y == 0
  {
    Point(if Horizontal in orientations then to.x - from.x else 0,
          if Vertical in orientations then to.y - from.y else 0)
  }

  /** Offsets compose: going from a to b and then from b to c is going from
      a to c. */
  lemma {:induction false} MaskedDeltaAdds(a: Point, b: Point, c: Point, o: set<Orientation>)
    ensures Plus(MaskedDelta(a, b, o), MaskedDelta(b, c, o)) == MaskedDelta(a, c, o)
  {
  }

  /** The sum of a log of offsets. */
  function SumDeltas(log: seq<Point>): Point
  {
    if |log| == 0 then Point(0, 0) else Plus(SumDeltas(log[..|log| - 1]), log[|log| - 1])
  }

  lemma {:induction false} SumDeltasAppend(log: seq<Point>, d: Point)
    ensures SumDeltas(log + [d]) == Plus(SumDeltas(log), d)
  {
    assert (log + [d])[..|log + [d]| - 1] == log;
  }

  class QwtPlotPanner {
    var button: nat
    var buttonModifiers: nat
    var orientations: set<Orientation>
    var isEnabled: bool
    var initialPos: Point
    var currentPos: Point
    /** QwtPicker's active flag, set by begin and cleared by end. */
    var isActive: bool
    /** Calls of QwtPicker::setEnabled. */
    var pickerEnabledLog: seq<bool>
    /** The moved(dx, dy) and panned(dx, dy) signals. */
    var movedLog: seq<Point>
    var pannedLog: seq<Point>

    /** PrivateData starts disabled with both orientations and the left
      button; the constructor's init() then enables the panner. */
    constructor()
      ensures isEnabled && !isActive
      ensures orientations == {Horizontal, Vertical}
      ensures button == LeftButton && buttonModifiers == NoModifier
      ensures initialPos == Unset
      ensures movedLog == [] && pannedLog == [] && pickerEnabledLog == []
    {
      button, buttonModifiers := LeftButton, NoModifier;
      orientations := {Horizontal, Vertical};
      isEnabled := false;
      initialPos := Unset;
      currentPos := Point(0, 0);
      isActive := false;
      pickerEnabledLog, movedLog, pannedLog := [], [], [];
      isEnabled := true;
    }

    method SetOrientations(o: set<Orientation>)
      modifies this
      ensures orientations == o
      ensures isEnabled == old(isEnabled) && initialPos == old(initialPos) && currentPos == old(currentPos)
      ensures isActive == old(isActive) && button == old(button) && buttonModifiers == old(buttonModifiers)
      ensures pickerEnabledLog == old(pickerEnabledLog) && movedLog == old(movedLog) && pannedLog == old(pannedLog)
    {
      orientations := o;
    }

    predicate IsOrientationEnabled(o: Orientation)
      reads this
    {
      o in orientations
    }

    method SetMouseButton(b: nat, modifiers: nat)
      modifies this
      ensures button == b && buttonModifiers == modifiers
      ensures orientations == old(orientations) && isEnabled == old(isEnabled)
      ensures initialPos == old(initialPos) && currentPos == old(currentPos) && isActive == old(isActive)
      ensures pickerEnabledLog == old(pickerEnabledLog) && movedLog == old(movedLog) && pannedLog == old(pannedLog)
    {
      button, buttonModifiers := b, modifiers;
    }

    /** getMouseButton. */
    function MouseButton(): (r: (nat, nat))
      reads this
      ensures r.0 == button && r.1 == buttonModifiers
    {
      (button, buttonModifiers)
    }

    /** setEnabled: the picker is told only when the value changes. */
    method SetEnabled(on: bool)
      modifies this
      ensures isEnabled == on
      ensures old(isEnabled) != on ==> pickerEnabledLog == old(pickerEnabledLog) + [on]
      ensures orientations == old(orientations) && button == old(button) && buttonModifiers == old(buttonModifiers)
      ensures old(isEnabled) == on ==> pickerEnabledLog == old(pickerEnabledLog)
      ensures initialPos == old(initialPos) && currentPos == old(currentPos) && isActive == old(isActive)
      ensures movedLog == old(movedLog) && pannedLog == old(pannedLog)
    {
      if isEnabled != on {
        isEnabled := on;
        pickerEnabledLog := pickerEnabledLog + [on];
      }
    }

    /** begin: ignored while disabled; otherwise both positions become the
      tracker position and the picker becomes active. */
    method Begin(trackerPosition: Point)
      modifies this
      ensures !old(isEnabled) ==> initialPos == old(initialPos) && currentPos == old(currentPos) && isActive == old(isActive)
      ensures old(isEnabled) ==> initialPos == trackerPosition && currentPos == trackerPosition && isActive
      ensures isEnabled == old(isEnabled) && orientations == old(orientations)
      ensures button == old(button) && buttonModifiers == old(buttonModifiers)
      ensures movedLog == old(movedLog) && pannedLog == old(pannedLog) && pickerEnabledLog == old(pickerEnabledLog)
    {
      if !isEnabled {
        return;
      }
      initialPos := trackerPosition;
      currentPos := trackerPosition;
      isActive := true;
    }

    /** move: ignored unless enabled and active. A non-zero masked offset
      is emitted and initialPos catches up with currentPos, so successive
      offsets are increments; a zero offset leaves initialPos where it was. */
    method Move(pos: Point)
      modifies this
      ensures !(old(isEnabled) && old(isActive)) ==>
        (initialPos == old(initialPos) && currentPos == old(currentPos) && movedLog == old(movedLog))
      ensures old(isEnabled) && old(isActive) ==> currentPos == pos
      ensures old(isEnabled) && old(isActive) && MaskedDelta(old(initialPos), pos, orientations) != Point(0, 0) ==>
        (movedLog == old(movedLog) + [MaskedDelta(old(initialPos), pos, orientations)] && initialPos == pos)
      ensures old(isEnabled) && old(isActive) && MaskedDelta(old(initialPos), pos, orientations) == Point(0, 0) ==>
        (movedLog == old(movedLog) && initialPos == old(initialPos))
      ensures isEnabled == old(isEnabled) && isActive == old(isActive) && orientations == old(orientations)
      ensures pannedLog == old(pannedLog) && pickerEnabledLog == old(pickerEnabledLog)
      ensures button == old(button) && buttonModifiers == old(buttonModifiers)
    {
      if !isEnabled || !isActive {
        return;
      }
      currentPos := pos;
      var d := MaskedDelta(initialPos, currentPos, orientations);
      if d.x != 0 || d.y != 0 {
        movedLog := movedLog + [d];
        initialPos := currentPos;
      }
    }

    /** end: on an active panner a non-zero masked offset is emitted as
      panned, both positions are reset to (-1, -1) and the picker becomes
      inactive; an inactive panner is left as it is. */
    method End()
      modifies this
      ensures !old(isActive) ==> initialPos == old(initialPos) && currentPos == old(currentPos) && pannedLog == old(pannedLog)
      ensures old(isActive) ==> initialPos == Unset && currentPos == Unset
      ensures old(isActive) && MaskedDelta(old(initialPos), old(currentPos), orientations) != Point(0, 0) ==>
        pannedLog == old(pannedLog) + [MaskedDelta(old(initialPos), old(currentPos), orientations)]
      ensures old(isActive) && MaskedDelta(old(initialPos), old(currentPos), orientations) == Point(0, 0) ==>
        pannedLog == old(pannedLog)
      ensures !isActive && isEnabled == old(isEnabled) && orientations == old(orientations)
      ensures movedLog == old(movedLog) && pickerEnabledLog == old(pickerEnabledLog)
      ensures button == old(button) && buttonModifiers == old(buttonModifiers)
    {
      if isActive {
        var d := MaskedDelta(initialPos, currentPos, orientations);
        if d.x != 0 || d.y != 0 {
          pannedLog := pannedLog + [d];
        }
        initialPos := Unset;
        currentPos := Unset;
      }
      isActive := false;
    }

    /** widgetMousePressEvent forwards a press only for the configured
      button and modifiers. */
    predicate ForwardsPress(b: nat, modifiers: nat)
      reads this
    {
      b == button && modifiers == buttonModifiers
    }

    /** widgetMouseReleaseEvent forwards a release of the configured button,
      whatever the modifiers. */
    predicate ForwardsRelease(b: nat)
      reads this
    {
      b == button
    }

    /** widgetMouseMoveEvent forwards a move only while active. */
    predicate ForwardsMove()
      reads this
    {
      isActive
    }
  }

  /** A press that is forwarded is also released by the same button. */
  lemma {:induction false} ForwardedPressIsReleased(p: QwtPlotPanner, b: nat, modifiers: nat)
    ensures p.ForwardsPress(b, modifiers) ==> p.ForwardsRelease(b)
    ensures p.ForwardsRelease(b) && modifiers == p.buttonModifiers ==> p.ForwardsPress(b, modifiers)
  {
  }

  /** A drag: begin at start, move through path, release. The moved offsets
      add up to the masked displacement from start to the last position,
      and release emits no panned signal, since every non-zero step has
      already been reported. */
  method Drag(p: QwtPlotPanner, start: Point, path: seq<Point>)
    requires p.isEnabled && !p.isActive
    modifies p
    ensures |old(p.movedLog)| <= |p.movedLog| && p.movedLog[..|old(p.movedLog)|] == old(p.movedLog)
    ensures |path| > 0 ==> SumDeltas(p.movedLog[|old(p.movedLog)|..]) == MaskedDelta(start, path[|path| - 1], p.orientations)
    ensures |path| == 0 ==> p.movedLog == old(p.movedLog)
    ensures p.pannedLog == old(p.pannedLog)
    ensures !p.isActive && p.initialPos == Unset && p.currentPos == Unset
  {
    var before := p.movedLog;
    p.Begin(start);
    var i := 0;
    while i < |path|
      invariant 0 <= i <= |path|
      invariant p.isEnabled && p.isActive && p.orientations == old(p.orientations)
      invariant p.pannedLog == old(p.pannedLog)
      invariant |before| <= |p.movedLog| && p.movedLog[..|before|] == before
      invariant SumDeltas(p.movedLog[|before|..]) == MaskedDelta(start, p.initialPos, p.orientations)
      invariant MaskedDelta(p.initialPos, p.currentPos, p.orientations) == Point(0, 0)
      invariant i > 0 ==> p.currentPos == path[i - 1]
      invariant i == 0 ==> p.currentPos == start && p.movedLog == before
    {
      DragStep(p, start, before, path[i]);
      i := i + 1;
    }
    if |path| > 0 {
      MaskedDeltaAdds(start, p.initialPos, p.currentPos, p.orientations);
    }
    p.End();
  }

  /** One move of a drag: the offsets emitted since the drag began still
      add up to the masked displacement from start to initialPos, and
      initialPos and currentPos again agree in the enabled orientations. */
  method DragStep(p: QwtPlotPanner, start: Point, before: seq<Point>, q: Point)
    requires p.isEnabled && p.isActive
    requires |before| <= |p.movedLog| && p.movedLog[..|before|] == before
    requires SumDeltas(p.movedLog[|before|..]) == MaskedDelta(start, p.initialPos, p.orientations)
    modifies p
    ensures p.isEnabled && p.isActive && p.orientations == old(p.orientations)
    ensures p.pannedLog == old(p.pannedLog) && p.currentPos == q
    ensures |before| <= |p.movedLog| && p.movedLog[..|before|] == before
    ensures SumDeltas(p.movedLog[|before|..]) == MaskedDelta(start, p.initialPos, p.orientations)
    ensures MaskedDelta(p.initialPos, p.currentPos, p.orientations) == Point(0, 0)
  {
    ghost var logBefore := p.movedLog;
    ghost var init := p.initialPos;
    p.Move(q);
    var d := MaskedDelta(init, q, p.orientations);
    if d != Point(0, 0) {
      assert p.movedLog[|before|..] == logBefore[|before|..] + [d];
      SumDeltasAppend(logBefore[|before|..], d);
      MaskedDeltaAdds(start, init, q, p.orientations);
    }
  }

  /** What moveCanvas needs of one axis: whether the plot shows it, whether
      its canvas map is inverting, its scale bounds and the map's pixel
      distance. */
  datatype AxisPan = AxisPan(enabled: bool, inverting: bool, lowerBound: real, upperBound: real, pDist: real)

  /** The bounds moveCanvas gives one axis: an X axis shifts by
      -dx * range / pDist while horizontal panning is on and dx != 0, a Y
      axis by dy * range / pDist while vertical panning is on and dy != 0;
      a hidden or inverting axis is left alone. */
  function PanAxis(axisPos: int, a: AxisPan, dx: int, dy: int, orientations: set<Orientation>): (r: AxisPan)
    ensures r.enabled == a.enabled && r.inverting == a.inverting && r.pDist == a.pDist
    ensures r.upperBound - r.lowerBound == a.upperBound - a.lowerBound
    ensures !a.enabled || a.inverting || a.pDist == 0.0 ==> r == a
    ensures Axis.IsXAxis(axisPos) && (dx == 0 || Horizontal !in orientations) ==> r == a
    ensures !Axis.IsXAxis(axisPos) && (dy == 0 || Vertical !in orientations) ==> r == a
  {
    if !a.enabled || a.inverting || a.pDist == 0.0 then a
    else
      var range := a.upperBound - a.lowerBound;
      if Axis.IsXAxis(axisPos) then
        if Horizontal in orientations && dx != 0 then
          var shift := -(dx as real) * range / a.pDist;
          a.(lowerBound := a.lowerBound + shift, upperBound := a.upperBound + shift)
        else a
      else if Vertical in orientations && dy != 0 then
        var shift := (dy as real) * range / a.pDist;
        a.(lowerBound := a.lowerBound + shift, upperBound := a.upperBound + shift)
      else a
  }

  /** Panning by an offset and then by its opposite restores the axis:
      the range, and so the shift per pixel, is unchanged by a pan. */
  lemma {:induction false} PanAxisUndo(axisPos: int, a: AxisPan, dx: int, dy: int, orientations: set<Orientation>)
    ensures PanAxis(axisPos, PanAxis(axisPos, a, dx, dy, orientations), -dx, -dy, orientations) == a
  {
    var b := PanAxis(axisPos, a, dx, dy, orientations);
    assert b.upperBound - b.lowerBound == a.upperBound - a.lowerBound;
    if a.enabled && !a.inverting && a.pDist != 0.0 {
      var range := a.upperBound - a.lowerBound;
      if Axis.IsXAxis(axisPos) && Horizontal in orientations && dx != 0 {
        var shift := -(dx as real) * range / a.pDist;
        assert -((-dx) as real) * range / a.pDist == -shift;
      } else if !Axis.IsXAxis(axisPos) && Vertical in orientations && dy != 0 {
        var shift := (dy as real) * range / a.pDist;
        assert ((-dy) as real) * range / a.pDist == -shift;
      }
    }
  }

  /** moveCanvas: without a plot nothing happens; otherwise each of the
      four axes is panned and the plot is replotted. */
  method MoveCanvas(hasPlot: bool, axes: seq<AxisPan>, dx: int, dy: int, orientations: set<Orientation>)
    returns (result: seq<AxisPan>, replotted: bool)
    requires |axes| == Axis.AxisPositions
    ensures replotted == hasPlot
    ensures !hasPlot ==> result == axes
    ensures hasPlot ==>
      (|result| == |axes| && forall a :: 0 <= a < |axes| ==> result[a] == PanAxis(a, axes[a], dx, dy, orientations))
  {
    if !hasPlot {
      return axes, false;
    }
    result := [];
    var axis := 0;
    while axis < Axis.AxisPositions
      invariant 0 <= axis <= Axis.AxisPositions && |result| == axis
      invariant forall a :: 0 <= a < axis ==> result[a] == PanAxis(a, axes[a], dx, dy, orientations)
    {
      result := result + [PanAxis(axis, axes[axis], dx, dy, orientations)];
      axis := axis + 1;
    }
    replotted := true;
  }
}
