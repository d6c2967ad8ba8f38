/** QwtPlotCanvasZoomer: a zoom stack whose entries are lists of per-plot
    states, one for every plot of the host's plot list. Plots are identifiers;
    a null plot is None. Applying a state to a plot is not modelled. */
module PlotCanvasZoomer {
  import opened Types
  import CanvasZoomer

  /** QwtPlotCanvasZoomState: the plot it belongs to and one interval per axis
      position (index = QwtAxis position). */
  datatype PlotCanvasZoomState = PlotCanvasZoomState(plot: Option<nat>, axisInterval: seq<Interval>)
  {
    /** QwtPlotCanvasZoomState::isValid: the plot is not null. */
    predicate IsValid() { plot.Some? }
  }

  /** QwtPlotCanvasZoomState::operator==: the same plot and, axis by axis,
      the same interval. */
  method StatesEqual(a: PlotCanvasZoomState, b: PlotCanvasZoomState) returns (r: bool)
    requires |a.axisInterval| == 4 && |b.axisInterval| == 4
    ensures r <==> a == b
  {
    if a.plot != b.plot {
      return false;
    }
    for axisId := 0 to 4
      invariant forall k :: 0 <= k < axisId ==> a.axisInterval[k] == b.axisInterval[k]
    {
      if a.axisInterval[axisId] != b.axisInterval[axisId] {
        return false;
      }
    }
    assert a.axisInterval == b.axisInterval;
    return true;
  }

  /** QwtPlotCanvasZoomState::fromPlot: for a plot, its identity and the scale
      range of each of the four axes. */
  function FromPlot(p: nat, range: (nat, int) -> Interval): (s: PlotCanvasZoomState)
    ensures s.IsValid() && s.plot == Some(p) && |s.axisInterval| == 4
    ensures forall a :: 0 <= a < 4 ==> s.axisInterval[a] == range(p, a)
  {
    PlotCanvasZoomState(Some(p), [range(p, 0), range(p, 1), range(p, 2), range(p, 3)])
  }

  /** The base list of setZoomBase: one state per plot, in plot-list order. */
  method BaseStates(plots: seq<nat>, range: (nat, int) -> Interval) returns (base: seq<PlotCanvasZoomState>)
    ensures |base| == |plots|
    ensures forall i :: 0 <= i < |plots| ==> base[i] == FromPlot(plots[i], range)
  {
    base := [];
    for i := 0 to |plots|
      invariant |base| == i
      invariant forall k :: 0 <= k < i ==> base[k] == FromPlot(plots[k], range)
    {
      base := base + [FromPlot(plots[i], range)];
    }
  }

  class QwtPlotCanvasZoomer {
    var zoomStack: seq<seq<PlotCanvasZoomState>>
    var zoomStateIndex: nat
    var maxStackDepth: int
    var replot: bool
    /** Arguments of the emitted zoomed() signals, oldest first. */
    var zoomed: seq<seq<PlotCanvasZoomState>>

    /** The stack is never empty and the cursor is on an entry. */
    ghost predicate Valid()
      reads this
    {
      zoomStateIndex < |zoomStack|
    }

    /** QwtPlotCanvasZoomer(canvas, doReplot) on the canvas of a plot: no depth
        limit and one base entry holding a state per plot of the plot list. */
    constructor (doReplot: bool, plots: seq<nat>, range: (nat, int) -> Interval)
      ensures Valid() && maxStackDepth == -1 && replot == doReplot && zoomed == []
      ensures |zoomStack| == 1 && zoomStateIndex == 0
      ensures |zoomStack[0]| == |plots|
      ensures forall i :: 0 <= i < |plots| ==> zoomStack[0][i] == FromPlot(plots[i], range)
    {
      maxStackDepth := -1;
      replot := doReplot;
      zoomed := [];
      var base := BaseStates(plots, range);
      zoomStack := [base];
      zoomStateIndex := 0;
    }

    /** QwtPlotCanvasZoomer::zoomState. */
    function ZoomState(): (s: seq<PlotCanvasZoomState>)
      reads this
      requires Valid()
      ensures s in zoomStack
    {
      zoomStack[zoomStateIndex]
    }

    /** QwtPlotCanvasZoomer::setZoomBase: without a plot nothing changes;
        otherwise the stack becomes the one list of current states, one per
        plot of the plot list, with the cursor on it. */
    method SetZoomBase(hasPlot: bool, plots: seq<nat>, range: (nat, int) -> Interval)
      requires Valid()
      modifies this
      ensures Valid()
      ensures !hasPlot ==> zoomStack == old(zoomStack) && zoomStateIndex == old(zoomStateIndex)
      ensures hasPlot ==> |zoomStack| == 1 && zoomStateIndex == 0 && |zoomStack[0]| == |plots|
      ensures hasPlot ==> forall i :: 0 <= i < |plots| ==> zoomStack[0][i] == FromPlot(plots[i], range)
      ensures maxStackDepth == old(maxStackDepth) && zoomed == old(zoomed) && replot == old(replot)
    {
      if !hasPlot {
        return;
      }
      zoomStack := [];
      var base := BaseStates(plots, range);
      zoomStack := zoomStack + [base];
      zoomStateIndex := 0;
    }

    /** QwtPlotCanvasZoomer::zoom(int): offset 0 goes to the base, any other
        offset moves the cursor clamped into [0, count - 1]; zoomed() only when
        the cursor moves; the stack is untouched. */
    method ZoomBy(offset: int)
      requires Valid()
      modifies this`zoomStateIndex, this`zoomed
      ensures Valid()
      ensures offset == 0 ==> zoomStateIndex == 0
      ensures offset != 0 ==> zoomStateIndex == CanvasZoomer.ClampIndex(old(zoomStateIndex) + offset, |zoomStack| - 1)
      ensures zoomed == if zoomStateIndex != old(zoomStateIndex) then old(zoomed) + [zoomStack[zoomStateIndex]] else old(zoomed)
    {
      var newIndex: int;
      if offset == 0 {
        newIndex := 0;
      } else {
        newIndex := zoomStateIndex + offset;
        newIndex := CanvasZoomer.ClampIndex(newIndex, |zoomStack| - 1);
      }
      if newIndex != zoomStateIndex {
        zoomStateIndex := newIndex;
        zoomed := zoomed + [ZoomState()];
      }
    }

    /** QwtPlotCanvasZoomer::appendZoom: pushes the list on top of the stack
        without discarding the entries above the cursor, makes it current and
        emits zoomed(). */
    method AppendZoom(states: seq<PlotCanvasZoomState>)
      requires Valid()
      modifies this`zoomStack, this`zoomStateIndex, this`zoomed
      ensures Valid()
      ensures zoomStack == old(zoomStack) + [states]
      ensures zoomStateIndex == |zoomStack| - 1
      ensures zoomed == old(zoomed) + [states]
    {
      zoomStack := zoomStack + [states];
      zoomStateIndex := |zoomStack| - 1;
      zoomed := zoomed + [states];
    }

    /** QwtPlotCanvasZoomer::setMaxStackDepth: stores the limit; with d >= 0 and
        more than d + 1 entries, zooms out by the excess and pops every entry
        above the cursor; the zoom out emits zoomed() with the new current entry
        when the cursor moves. */
    method SetMaxStackDepth(depth: int)
      requires Valid()
      modifies this`zoomStack, this`zoomStateIndex, this`zoomed, this`maxStackDepth
      ensures Valid() && maxStackDepth == depth
      ensures depth < 0 || |old(zoomStack)| - 1 <= depth ==>
        zoomStack == old(zoomStack) && zoomStateIndex == old(zoomStateIndex) && zoomed == old(zoomed)
      ensures depth >= 0 && |old(zoomStack)| - 1 > depth ==>
        zoomStateIndex == CanvasZoomer.ClampIndex(old(zoomStateIndex) - (|old(zoomStack)| - 1 - depth), |old(zoomStack)| - 1) &&
        zoomStack == old(zoomStack)[..zoomStateIndex + 1] && |zoomStack| <= depth + 1 &&
        zoomed == (if zoomStateIndex != old(zoomStateIndex)
                   then old(zoomed) + [old(zoomStack)[zoomStateIndex]] else old(zoomed))
    {
      maxStackDepth := depth;
      if depth >= 0 {
        var zoomOut := |zoomStack| - 1 - depth;
        if zoomOut > 0 {
          ZoomBy(-zoomOut);
          var stack := zoomStack;
          var i := |stack| - 1;
          while i > zoomStateIndex
            invariant zoomStateIndex <= i < |stack| == i + 1
            invariant stack == zoomStack[..i + 1]
            decreases i
          {
            stack := stack[..|stack| - 1];
            i := i - 1;
          }
          zoomStack := stack;
        }
      }
    }

    /** QwtPlotCanvasZoomer::begin: refuses (false) to start a selection when
        there is a limit and the cursor has reached it. */
    function CanBegin(): (ok: bool)
      reads this
      ensures !ok <==> maxStackDepth >= 0 && zoomStateIndex >= maxStackDepth
    {
      !(maxStackDepth >= 0 && zoomStateIndex >= maxStackDepth)
    }

    /** A completed selection (end()): begin was allowed, and appendZoom pushes
        the per-plot states of the selected rectangle. */
    method ZoomSelection(states: seq<PlotCanvasZoomState>) returns (done: bool)
      requires Valid()
      modifies this`zoomStack, this`zoomStateIndex, this`zoomed
      ensures Valid()
      ensures done == old(CanBegin())
      ensures done ==> zoomStack == old(zoomStack) + [states] && zoomStateIndex == |zoomStack| - 1
      ensures !done ==> zoomStack == old(zoomStack) && zoomStateIndex == old(zoomStateIndex)
    {
      done := CanBegin();
      if done {
        AppendZoom(states);
      }
    }

    /** A completed selection that first discards the entries above the
        cursor, as QwtCanvasZoomer::zoom(state) does, so that the stack never
        holds more than limit + 1 entries. */
    method ZoomSelectionTruncating(states: seq<PlotCanvasZoomState>) returns (done: bool)
      requires Valid()
      requires maxStackDepth >= 0 ==> |zoomStack| <= maxStackDepth + 1
      modifies this`zoomStack, this`zoomStateIndex, this`zoomed
      ensures Valid()
      ensures maxStackDepth >= 0 ==> |zoomStack| <= maxStackDepth + 1
      ensures done == old(CanBegin())
      ensures done ==> zoomStack == old(zoomStack)[..old(zoomStateIndex) + 1] + [states]
      ensures !done ==> zoomStack == old(zoomStack) && zoomStateIndex == old(zoomStateIndex)
    {
      done := CanBegin();
      if done {
        zoomStack := zoomStack[..zoomStateIndex + 1];
        AppendZoom(states);
      }
    }
  }

  /** With the source's appendZoom, the depth limit does not bound the stack:
      with limit 1, after zooming in once and back out, a second selection is
      allowed and leaves three entries on the stack. */
  method DepthLimitExceeded(s1: seq<PlotCanvasZoomState>, s2: seq<PlotCanvasZoomState>)
    returns (z: QwtPlotCanvasZoomer)
    ensures z.maxStackDepth == 1 && |z.zoomStack| == 3
  {
    z := new QwtPlotCanvasZoomer(false, [], (p: nat, a: int) => Interval(0.0, 1.0));
    z.SetMaxStackDepth(1);
    var ok := z.ZoomSelection(s1);
    assert ok;
    z.ZoomBy(-1);
    ok := z.ZoomSelection(s2);
    assert ok;
  }
}
