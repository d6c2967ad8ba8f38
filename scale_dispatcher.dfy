/** QwtPlotScaleEventDispatcher: a cache of the rectangles of the visible
    scale widgets of a plot and its parasites, and the press / move /
    release / wheel state machine that selects a scale and pans or zooms
    it. Scale widgets are identified by number; their built-in actions,
    orientation and rectangles (mapped into the bound plot's coordinates)
    come from outside and are passed in. Cursor shapes are not modelled. */
module ScaleDispatcher {
  import opened Types

  /** One axis slot of a plot as rebuildCache() sees it: its scale widget
    (if any), whether the axis is visible, and the widget's scale rect in
    the bound plot's coordinates. */
  datatype AxisEntry = AxisEntry(scale: Option<nat>, visible: bool, eventRect: Rect)

  /** PrivateData::ScaleCache. */
  datatype ScaleCache = ScaleCache(scale: Option<nat>, eventRect: Rect, isValid: bool)
  {
    predicate Contains(pos: Point)
    {
      isValid && eventRect.Contains(pos)
    }
  }

  datatype MouseButton = LeftButton | RightButton | MiddleButton

  /** The cache entries for one plot's axes, in axis order. */
  function PlotEntries(axes: seq<AxisEntry>): (r: seq<ScaleCache>)
    ensures |r| <= |axes|
  {
    if |axes| == 0 then []
    else
      var pre := PlotEntries(axes[..|axes| - 1]);
      var a := axes[|axes| - 1];
      if a.scale.Some? && a.visible then pre + [ScaleCache(a.scale, a.eventRect, true)] else pre
  }

  /** rebuildCache's result: for each plot in plotList order, one valid
    entry per visible axis that has a scale widget. */
  function CacheEntries(plots: seq<seq<AxisEntry>>): seq<ScaleCache>
  {
    if |plots| == 0 then [] else CacheEntries(plots[..|plots| - 1]) + PlotEntries(plots[|plots| - 1])
  }

  /** Every cache entry is valid and names a scale widget. */
  predicate WellFormed(caches: seq<ScaleCache>)
  {
    forall k :: 0 <= k < |caches| ==> caches[k].isValid && caches[k].scale.Some?
  }

  lemma {:induction false} PlotEntriesExact(axes: seq<AxisEntry>)
    ensures WellFormed(PlotEntries(axes))
    ensures forall c :: c in PlotEntries(axes) <==>
      exists a :: a in axes && a.scale.Some? && a.visible && c == ScaleCache(a.scale, a.eventRect, true)
  {
    if |axes| > 0 {
      var pre := axes[..|axes| - 1];
      PlotEntriesExact(pre);
      assert axes == pre + [axes[|axes| - 1]];
    }
  }

  /** The cache holds exactly the visible axes that have a widget. */
  lemma {:induction false} CacheEntriesExact(plots: seq<seq<AxisEntry>>)
    ensures WellFormed(CacheEntries(plots))
    ensures forall c :: c in CacheEntries(plots) <==>
      exists k, a :: 0 <= k < |plots| && a in plots[k] && a.scale.Some? && a.visible && c == ScaleCache(a.scale, a.eventRect, true)
  {
    if |plots| > 0 {
      var pre := plots[..|plots| - 1];
      CacheEntriesExact(pre);
      PlotEntriesExact(plots[|plots| - 1]);
      assert forall k :: 0 <= k < |pre| ==> pre[k] == plots[k];
    }
  }

  /** findTargetOnScale's specification: the scale of the first entry
    containing pos. */
  function FirstTarget(caches: seq<ScaleCache>, pos: Point): Option<nat>
  {
    if |caches| == 0 then None
    else if caches[0].Contains(pos) then caches[0].scale
    else FirstTarget(caches[1..], pos)
  }

  lemma {:induction false} FirstTargetIsFirst(caches: seq<ScaleCache>, pos: Point)
    requires WellFormed(caches)
    ensures FirstTarget(caches, pos).None? <==> forall k :: 0 <= k < |caches| ==> !caches[k].Contains(pos)
    ensures FirstTarget(caches, pos).Some? ==>
      exists k :: 0 <= k < |caches| && caches[k].Contains(pos) && caches[k].scale == FirstTarget(caches, pos) &&
        forall j :: 0 <= j < k ==> !caches[j].Contains(pos)
  {
    if |caches| > 0 && !caches[0].Contains(pos) {
      var rest := caches[1..];
      assert WellFormed(rest) by {
        forall k | 0 <= k < |rest| ensures rest[k].isValid && rest[k].scale.Some? {
          assert rest[k] == caches[k + 1];
        }
      }
      FirstTargetIsFirst(rest, pos);
      if FirstTarget(rest, pos).Some? {
        var k :| 0 <= k < |rest| && rest[k].Contains(pos) && rest[k].scale == FirstTarget(rest, pos) &&
          forall j :: 0 <= j < k ==> !rest[j].Contains(pos);
        assert caches[k + 1] == rest[k];
        assert forall j :: 0 <= j < k + 1 ==> !caches[j].Contains(pos) by {
          forall j | 0 <= j < k + 1 ensures !caches[j].Contains(pos) {
            if j > 0 {
              assert caches[j] == rest[j - 1];
            }
          }
        }
      } else {
        assert forall k :: 0 <= k < |caches| ==> !caches[k].Contains(pos) by {
          forall k | 0 <= k < |caches| ensures !caches[k].Contains(pos) {
            if k > 0 {
              assert caches[k] == rest[k - 1];
            }
          }
        }
      }
    }
  }

  /** The selection after setSelected(on) on scale s. */
  function Select(sel: set<nat>, s: nat, on: bool): set<nat>
  {
    if on then sel + {s} else sel - {s}
  }

  /** The selectionChanged signal setSelected(on) on scale s sends: one,
    and only when the selection changes. */
  function SelectSignal(sel: set<nat>, s: nat, on: bool): seq<(nat, bool)>
  {
    if (s in sel) != on then [(s, on)] else []
  }

  class QwtPlotScaleEventDispatcher {
    var isEnable: bool
    var currentScale: Option<nat>
    var lastMousePos: Point
    var isMousePressed: bool
    var scaleCaches: seq<ScaleCache>
    var cacheDirty: bool
    /** The selection state of the scale widgets, and the selectionChanged
      signals they sent (setSelected only signals a change). */
    var selected: set<nat>
    var selectionEvents: seq<(nat, bool)>
    /** panScale(deltaPixel) and zoomIn/zoomOut calls made on scale widgets. */
    var panLog: seq<(nat, int)>
    var zoomLog: seq<(nat, bool)>

    ghost predicate Valid()
      reads this
    {
      WellFormed(scaleCaches)
    }

    /** The constructor builds the cache from the plot list at once. */
    constructor(plots: seq<seq<AxisEntry>>)
      ensures Valid()
      ensures isEnable && currentScale.None? && !isMousePressed && !cacheDirty
      ensures scaleCaches == CacheEntries(plots)
      ensures selectionEvents == [] && panLog == [] && zoomLog == []
    {
      isEnable, currentScale, lastMousePos, isMousePressed := true, None, Point(0, 0), false;
      scaleCaches, cacheDirty := [], true;
      selected, selectionEvents, panLog, zoomLog := {}, [], [], [];
      new;
      RebuildCache(plots);
    }

    method SetEnable(on: bool)
      modifies this
      ensures isEnable == on
      ensures currentScale == old(currentScale) && isMousePressed == old(isMousePressed)
      ensures scaleCaches == old(scaleCaches) && selected == old(selected)
      ensures selectionEvents == old(selectionEvents) && lastMousePos == old(lastMousePos)
      ensures panLog == old(panLog) && zoomLog == old(zoomLog) && cacheDirty == old(cacheDirty)
    {
      isEnable := on;
    }

    /** rebuildCache: one entry per visible axis widget of each plot, in
      plotList order; the cache is clean afterwards. */
    method RebuildCache(plots: seq<seq<AxisEntry>>)
      modifies this
      ensures Valid()
      ensures scaleCaches == CacheEntries(plots) && !cacheDirty
      ensures currentScale == old(currentScale) && isMousePressed == old(isMousePressed)
      ensures selected == old(selected) && selectionEvents == old(selectionEvents)
      ensures isEnable == old(isEnable) && lastMousePos == old(lastMousePos)
      ensures panLog == old(panLog) && zoomLog == old(zoomLog)
    {
      var caches: seq<ScaleCache> := [];
      var k := 0;
      while k < |plots|
        invariant 0 <= k <= |plots|
        invariant caches == CacheEntries(plots[..k])
      {
        assert plots[..k + 1][..k] == plots[..k];
        var axes := plots[k];
        var a := 0;
        var entries: seq<ScaleCache> := [];
        while a < |axes|
          invariant 0 <= a <= |axes|
          invariant entries == PlotEntries(axes[..a])
        {
          assert axes[..a + 1][..a] == axes[..a];
          if axes[a].scale.Some? && axes[a].visible {
            entries := entries + [ScaleCache(axes[a].scale, axes[a].eventRect, true)];
          }
          a := a + 1;
        }
        assert axes[..a] == axes;
        caches := caches + entries;
        k := k + 1;
      }
      assert plots[..k] == plots;
      CacheEntriesExact(plots);
      scaleCaches := caches;
      cacheDirty := false;
    }

    /** findTargetOnScale: the scale of the first cache entry whose valid
      rect contains pos, None when there is none. */
    method FindTargetOnScale(pos: Point) returns (r: Option<nat>)
      requires Valid()
      ensures r == FirstTarget(scaleCaches, pos)
      ensures r.None? <==> forall k :: 0 <= k < |scaleCaches| ==> !scaleCaches[k].Contains(pos)
    {
      FirstTargetIsFirst(scaleCaches, pos);
      var i := 0;
      while i < |scaleCaches|
        invariant 0 <= i <= |scaleCaches|
        invariant FirstTarget(scaleCaches, pos) == FirstTarget(scaleCaches[i..], pos)
      {
        if scaleCaches[i].Contains(pos) {
          return scaleCaches[i].scale;
        }
        assert scaleCaches[i..][1..] == scaleCaches[i + 1..];
        i := i + 1;
      }
      return None;
    }

    /** QwtScaleWidget::setSelected on scale s: only a change signals. */
    method SetScaleSelected(s: nat, on: bool)
      modifies this
      ensures s in selected <==> on
      ensures forall t :: t != s ==> (t in selected <==> t in old(selected))
      ensures selected == Select(old(selected), s, on)
      ensures selectionEvents == old(selectionEvents) + SelectSignal(old(selected), s, on)
      ensures currentScale == old(currentScale) && isMousePressed == old(isMousePressed)
      ensures scaleCaches == old(scaleCaches) && lastMousePos == old(lastMousePos)
      ensures isEnable == old(isEnable) && cacheDirty == old(cacheDirty)
      ensures panLog == old(panLog) && zoomLog == old(zoomLog)
    {
      if (s in selected) != on {
        selected := if on then selected + {s} else selected - {s};
        selectionEvents := selectionEvents + [(s, on)];
      }
    }

    /** handleMousePress as written; PressAsWrittenEffect states what it does. */
    method HandleMousePressAsWritten(button: MouseButton, pos: Point) returns (consumed: bool)
      requires Valid()
      modifies this
      ensures Valid() && PressAsWrittenEffect(button, pos, consumed)
    {
      if button != LeftButton {
        return false;
      }
      var target := FindTargetOnScale(pos);
      if target.None? {
        if currentScale.Some? {
          SetScaleSelected(currentScale.value, false);
        }
        currentScale, isMousePressed := None, false;
        return false;
      }
      if target != currentScale {
        if currentScale.Some? {
          SetScaleSelected(currentScale.value, false);
        }
        currentScale := target;
        SetScaleSelected(target.value, true);
      }
      lastMousePos := pos;
      isMousePressed := true;
      return true;
    }

    /** handleMousePress as written: a non-left press is not consumed and
      changes nothing. A left press off every scale deselects the current
      scale and resets the record. A left press on a scale other than the
      current one deselects the previous scale and makes it the current,
      selected scale; a press on the current scale leaves its selection
      alone. Either way the position and the pressed state are recorded
      and the press is consumed. */
    twostate predicate PressAsWrittenEffect(button: MouseButton, pos: Point, consumed: bool)
      reads this
    {
      scaleCaches == old(scaleCaches) && cacheDirty == old(cacheDirty) &&
      panLog == old(panLog) && zoomLog == old(zoomLog) && isEnable == old(isEnable) &&
      (button != LeftButton ==>
         !consumed && currentScale == old(currentScale) && isMousePressed == old(isMousePressed) &&
         selected == old(selected) && lastMousePos == old(lastMousePos)) &&
      (button == LeftButton && FirstTarget(old(scaleCaches), pos).None? ==>
         !consumed && currentScale.None? && !isMousePressed &&
         (old(currentScale).Some? ==> old(currentScale).value !in selected) &&
         lastMousePos == old(lastMousePos)) &&
      (button == LeftButton && FirstTarget(old(scaleCaches), pos).Some? ==>
         consumed && currentScale == FirstTarget(old(scaleCaches), pos) &&
         isMousePressed && lastMousePos == pos &&
         (currentScale == old(currentScale) ==> selected == old(selected)) &&
         (currentScale != old(currentScale) ==> currentScale.value in selected) &&
         (old(currentScale).Some? && old(currentScale) != currentScale ==> old(currentScale).value !in selected)) &&
      (button != LeftButton ==> selectionEvents == old(selectionEvents)) &&
      (button == LeftButton ==>
         var target := FirstTarget(old(scaleCaches), pos);
         var prev := old(currentScale);
         var drop := prev.Some? && prev != target;
         var sel := if drop then Select(old(selected), prev.value, false) else old(selected);
         var sent := old(selectionEvents) + (if drop then SelectSignal(old(selected), prev.value, false) else []);
         if target.Some? && target != prev then
           selected == Select(sel, target.value, true) &&
           selectionEvents == sent + SelectSignal(sel, target.value, true)
         else
           selected == sel && selectionEvents == sent)
    }

    /** handleMousePress corrected; PressEffect states what it does. */
    method HandleMousePress(button: MouseButton, pos: Point) returns (consumed: bool)
      requires Valid()
      modifies this
      ensures Valid() && PressEffect(button, pos, consumed)
    {
      if button != LeftButton {
        return false;
      }
      var target := FindTargetOnScale(pos);
      if target.None? {
        if currentScale.Some? {
          SetScaleSelected(currentScale.value, false);
        }
        currentScale, isMousePressed := None, false;
        return false;
      }
      if target != currentScale {
        if currentScale.Some? {
          SetScaleSelected(currentScale.value, false);
        }
        currentScale := target;
      }
      SetScaleSelected(target.value, true);
      lastMousePos := pos;
      isMousePressed := true;
      return true;
    }

    /** handleMousePress with a press on the current scale selecting it
      again, so the scale being pressed is always the selected one; the
      other cases are as written. */
    twostate predicate PressEffect(button: MouseButton, pos: Point, consumed: bool)
      reads this
    {
      scaleCaches == old(scaleCaches) && cacheDirty == old(cacheDirty) &&
      panLog == old(panLog) && zoomLog == old(zoomLog) && isEnable == old(isEnable) &&
      (button != LeftButton ==>
         !consumed && currentScale == old(currentScale) && isMousePressed == old(isMousePressed) &&
         selected == old(selected) && lastMousePos == old(lastMousePos)) &&
      (button == LeftButton && FirstTarget(old(scaleCaches), pos).None? ==>
         !consumed && currentScale.None? && !isMousePressed &&
         (old(currentScale).Some? ==> old(currentScale).value !in selected) &&
         lastMousePos == old(lastMousePos)) &&
      (button == LeftButton && FirstTarget(old(scaleCaches), pos).Some? ==>
         consumed && currentScale == FirstTarget(old(scaleCaches), pos) && currentScale.value in selected &&
         isMousePressed && lastMousePos == pos &&
         (old(currentScale).Some? && old(currentScale) != currentScale ==> old(currentScale).value !in selected)) &&
      (button != LeftButton ==> selectionEvents == old(selectionEvents)) &&
      (button == LeftButton ==>
         var target := FirstTarget(old(scaleCaches), pos);
         var prev := old(currentScale);
         var drop := prev.Some? && prev != target;
         var sel := if drop then Select(old(selected), prev.value, false) else old(selected);
         var sent := old(selectionEvents) + (if drop then SelectSignal(old(selected), prev.value, false) else []);
         if target.Some? then
           selected == Select(sel, target.value, true) &&
           selectionEvents == sent + SelectSignal(sel, target.value, true)
         else
           selected == sel && selectionEvents == sent)
    }

    /** handleScaleMousePan: the move along the scale's direction; only a
      non-zero one pans the scale and moves lastMousePos. */
    method HandleScaleMousePan(scale: nat, pos: Point, isYAxis: bool) returns (panned: bool)
      modifies this
      ensures var d := if isYAxis then pos.y - old(lastMousePos).y else pos.x - old(lastMousePos).x;
        (panned <==> d != 0) &&
        (d != 0 ==> panLog == old(panLog) + [(scale, d)] && lastMousePos == pos) &&
        (d == 0 ==> panLog == old(panLog) && lastMousePos == old(lastMousePos))
      ensures currentScale == old(currentScale) && isMousePressed == old(isMousePressed)
      ensures scaleCaches == old(scaleCaches) && selected == old(selected) && selectionEvents == old(selectionEvents)
      ensures zoomLog == old(zoomLog) && isEnable == old(isEnable) && cacheDirty == old(cacheDirty)
    {
      var deltaPixel := if isYAxis then pos.y - lastMousePos.y else pos.x - lastMousePos.x;
      if deltaPixel != 0 {
        panLog := panLog + [(scale, deltaPixel)];
        lastMousePos := pos;
        return true;
      }
      return false;
    }

    /** handleMouseMove; MoveEffect states what it does. */
    method HandleMouseMove(pos: Point, clickPan: nat -> bool, isYAxis: nat -> bool) returns (consumed: bool)
      modifies this
      ensures MoveEffect(pos, clickPan, isYAxis, consumed)
    {
      if currentScale.Some? && isMousePressed && clickPan(currentScale.value) {
        var _ := HandleScaleMousePan(currentScale.value, pos, isYAxis(currentScale.value));
        return true;
      }
      return false;
    }

    /** handleMouseMove: with a pressed current scale that allows click
      panning, the event is consumed and the scale is panned by the move
      along its direction (a zero move pans nothing and keeps lastMousePos);
      otherwise nothing changes. The selection and the cache never change. */
    twostate predicate MoveEffect(pos: Point, clickPan: nat -> bool, isYAxis: nat -> bool, consumed: bool)
      reads this
    {
      var cur := old(currentScale);
      (consumed <==> cur.Some? && old(isMousePressed) && clickPan(cur.value)) &&
      (consumed ==>
         var d := if isYAxis(cur.value) then pos.y - old(lastMousePos).y else pos.x - old(lastMousePos).x;
         (d != 0 ==> panLog == old(panLog) + [(cur.value, d)] && lastMousePos == pos) &&
         (d == 0 ==> panLog == old(panLog) && lastMousePos == old(lastMousePos))) &&
      (!consumed ==> panLog == old(panLog) && lastMousePos == old(lastMousePos)) &&
      currentScale == old(currentScale) && isMousePressed == old(isMousePressed) &&
      scaleCaches == old(scaleCaches) && selected == old(selected) && selectionEvents == old(selectionEvents) &&
      zoomLog == old(zoomLog) && isEnable == old(isEnable) && cacheDirty == old(cacheDirty)
    }

    /** handleMouseRelease; ReleaseEffect states what it does. */
    method HandleMouseRelease(button: MouseButton, pos: Point) returns (consumed: bool)
      requires Valid()
      modifies this
      ensures Valid() && ReleaseEffect(button, pos, consumed)
    {
      var target := FindTargetOnScale(pos);
      if button == RightButton {
        if target.None? {
          return false;
        }
        if currentScale == target {
          isMousePressed := false;
          SetScaleSelected(currentScale.value, false);
          return true;
        }
        return false;
      }
      if button == LeftButton {
        isMousePressed := false;
        return target.Some?;
      }
      return false;
    }

    /** handleMouseRelease: a right release on the current scale clears the
      pressed state and deselects it; a left release clears the pressed
      state and is consumed when a scale is under the cursor. The current
      scale, the position and the cache never change. */
    twostate predicate ReleaseEffect(button: MouseButton, pos: Point, consumed: bool)
      reads this
    {
      var target := FirstTarget(old(scaleCaches), pos);
      scaleCaches == old(scaleCaches) && currentScale == old(currentScale) &&
      lastMousePos == old(lastMousePos) && panLog == old(panLog) && zoomLog == old(zoomLog) &&
      isEnable == old(isEnable) && cacheDirty == old(cacheDirty) &&
      (button == RightButton ==>
         (consumed <==> target.Some? && target == old(currentScale)) &&
         (consumed ==>
            !isMousePressed && old(currentScale).value !in selected &&
            selected == Select(old(selected), old(currentScale).value, false) &&
            selectionEvents == old(selectionEvents) + SelectSignal(old(selected), old(currentScale).value, false)) &&
         (!consumed ==>
            isMousePressed == old(isMousePressed) && selected == old(selected) &&
            selectionEvents == old(selectionEvents))) &&
      (button == LeftButton ==>
         !isMousePressed && (consumed <==> target.Some?) && selected == old(selected) &&
         selectionEvents == old(selectionEvents)) &&
      (button == MiddleButton ==>
         !consumed && isMousePressed == old(isMousePressed) && selected == old(selected) &&
         selectionEvents == old(selectionEvents))
    }

    /** handleWheelEvent; WheelEffect states what it does. */
    method HandleWheelEvent(pos: Point, delta: int, wheelZoom: nat -> bool) returns (consumed: bool)
      requires Valid()
      modifies this
      ensures WheelEffect(pos, delta, wheelZoom, consumed)
    {
      var target := FindTargetOnScale(pos);
      if currentScale.Some? && currentScale == target && wheelZoom(currentScale.value) {
        zoomLog := zoomLog + [(currentScale.value, delta > 0)];
        return true;
      }
      return false;
    }

    /** handleWheelEvent: over the current scale, when it allows wheel
      zooming, zooms in for a positive delta and out otherwise; nothing
      else changes. */
    twostate predicate WheelEffect(pos: Point, delta: int, wheelZoom: nat -> bool, consumed: bool)
      reads this
    {
      (consumed <==> old(currentScale).Some? && old(currentScale) == FirstTarget(old(scaleCaches), pos) &&
                     wheelZoom(old(currentScale).value)) &&
      (consumed ==> zoomLog == old(zoomLog) + [(old(currentScale).value, delta > 0)]) &&
      (!consumed ==> zoomLog == old(zoomLog)) &&
      currentScale == old(currentScale) && isMousePressed == old(isMousePressed) &&
      scaleCaches == old(scaleCaches) && selected == old(selected) && lastMousePos == old(lastMousePos) &&
      panLog == old(panLog) && isEnable == old(isEnable) &&
      selectionEvents == old(selectionEvents) && cacheDirty == old(cacheDirty)
    }
  }

  /** The events eventFilter reacts to. */
  datatype Event =
    | Resize | LayoutRequest | Polish
    | MousePress(button: MouseButton, pos: Point)
    | MouseMove(pos: Point)
    | MouseRelease(button: MouseButton, pos: Point)
    | Wheel(pos: Point, delta: int)
    | OtherEvent

  /** Nothing observable of the dispatcher changed. */
  twostate predicate Unchanged(d: QwtPlotScaleEventDispatcher)
    reads d
  {
    d.currentScale == old(d.currentScale) && d.isMousePressed == old(d.isMousePressed) &&
    d.scaleCaches == old(d.scaleCaches) && d.selected == old(d.selected) &&
    d.selectionEvents == old(d.selectionEvents) && d.lastMousePos == old(d.lastMousePos) &&
    d.panLog == old(d.panLog) && d.zoomLog == old(d.zoomLog) &&
    d.cacheDirty == old(d.cacheDirty) && d.isEnable == old(d.isEnable)
  }

  /** What eventFilter does with an event once the dispatcher is enabled and
    the object is a plot: geometry events rebuild the cache and are not
    consumed; a press goes to handleMousePress (as written or corrected, by
    pressAsWritten), moves, releases and wheel events to their handlers,
    which decide whether the event is consumed; any other event is passed
    on untouched. */
  twostate predicate FilterEffect(d: QwtPlotScaleEventDispatcher, e: Event, pressAsWritten: bool,
                                  plots: seq<seq<AxisEntry>>, clickPan: nat -> bool, wheelZoom: nat -> bool,
                                  isYAxis: nat -> bool, consumed: bool)
    reads d
  {
    match e
    case Resize | LayoutRequest | Polish =>
      !consumed && d.scaleCaches == CacheEntries(plots) && !d.cacheDirty &&
      d.currentScale == old(d.currentScale) && d.isMousePressed == old(d.isMousePressed) &&
      d.selected == old(d.selected) && d.lastMousePos == old(d.lastMousePos) &&
      d.panLog == old(d.panLog) && d.zoomLog == old(d.zoomLog) &&
      d.selectionEvents == old(d.selectionEvents) && d.isEnable == old(d.isEnable)
    case MousePress(b, p) =>
      if pressAsWritten then d.PressAsWrittenEffect(b, p, consumed) else d.PressEffect(b, p, consumed)
    case MouseMove(p) => d.MoveEffect(p, clickPan, isYAxis, consumed)
    case MouseRelease(b, p) => d.ReleaseEffect(b, p, consumed)
    case Wheel(p, delta) => d.WheelEffect(p, delta, wheelZoom, consumed)
    case OtherEvent => !consumed && Unchanged(d)
  }

  /** eventFilter's handling of every event but a press. */
  method DispatchOther(d: QwtPlotScaleEventDispatcher, e: Event, plots: seq<seq<AxisEntry>>,
                       clickPan: nat -> bool, wheelZoom: nat -> bool, isYAxis: nat -> bool)
    returns (consumed: bool)
    requires d.Valid() && !e.MousePress?
    modifies d
    ensures d.Valid()
    ensures FilterEffect(d, e, true, plots, clickPan, wheelZoom, isYAxis, consumed)
    ensures FilterEffect(d, e, false, plots, clickPan, wheelZoom, isYAxis, consumed)
  {
    match e {
      case Resize =>
        d.cacheDirty := true;
        d.RebuildCache(plots);
        consumed := false;
      case LayoutRequest =>
        d.cacheDirty := true;
        d.RebuildCache(plots);
        consumed := false;
      case Polish =>
        d.cacheDirty := true;
        d.RebuildCache(plots);
        consumed := false;
      case MouseMove(p) =>
        consumed := d.HandleMouseMove(p, clickPan, isYAxis);
      case MouseRelease(b, p) =>
        consumed := d.HandleMouseRelease(b, p);
      case Wheel(p, delta) =>
        consumed := d.HandleWheelEvent(p, delta, wheelZoom);
      case OtherEvent =>
        consumed := false;
    }
  }

  /** eventFilter as written: a disabled dispatcher, or an object that is
    not a plot, consumes nothing and changes nothing; otherwise the event
    is handled as FilterEffect says, presses by handleMousePress as written. */
  method EventFilterAsWritten(d: QwtPlotScaleEventDispatcher, objIsPlot: bool, e: Event, plots: seq<seq<AxisEntry>>,
                              clickPan: nat -> bool, wheelZoom: nat -> bool, isYAxis: nat -> bool)
    returns (consumed: bool)
    requires d.Valid()
    modifies d
    ensures d.Valid()
    ensures !old(d.isEnable) || !objIsPlot ==> !consumed && Unchanged(d)
    ensures old(d.isEnable) && objIsPlot ==> FilterEffect(d, e, true, plots, clickPan, wheelZoom, isYAxis, consumed)
  {
    if !d.isEnable || !objIsPlot {
      return false;
    }
    if e.MousePress? {
      consumed := d.HandleMousePressAsWritten(e.button, e.pos);
    } else {
      consumed := DispatchOther(d, e, plots, clickPan, wheelZoom, isYAxis);
    }
  }

  /** eventFilter with the corrected press handler. */
  method EventFilter(d: QwtPlotScaleEventDispatcher, objIsPlot: bool, e: Event, plots: seq<seq<AxisEntry>>,
                     clickPan: nat -> bool, wheelZoom: nat -> bool, isYAxis: nat -> bool)
    returns (consumed: bool)
    requires d.Valid()
    modifies d
    ensures d.Valid()
    ensures !old(d.isEnable) || !objIsPlot ==> !consumed && Unchanged(d)
    ensures old(d.isEnable) && objIsPlot ==> FilterEffect(d, e, false, plots, clickPan, wheelZoom, isYAxis, consumed)
  {
    if !d.isEnable || !objIsPlot {
      return false;
    }
    if e.MousePress? {
      consumed := d.HandleMousePress(e.button, e.pos);
    } else {
      consumed := DispatchOther(d, e, plots, clickPan, wheelZoom, isYAxis);
    }
  }

  /** One scale widget (number 7) whose rect holds (5, 5). */
  function OneScale(): seq<seq<AxisEntry>>
  {
    [[AxisEntry(Some(7), true, Rect(0, 0, 10, 10))]]
  }

  /** As written: press the scale, right-click it to deselect it, press it
    again, all through eventFilter; it is the current, pressed scale but
    stays unselected. */
  method ReselectAsWrittenExample() returns (current: Option<nat>, pressed: bool, isSelected: bool)
    ensures current == Some(7) && pressed && !isSelected
  {
    var d := new QwtPlotScaleEventDispatcher(OneScale());
    assert d.scaleCaches == [ScaleCache(Some(7), Rect(0, 0, 10, 10), true)];
    var p := Point(5, 5);
    var c := EventFilterAsWritten(d, true, MousePress(LeftButton, p), OneScale(), _ => true, _ => true, _ => false);
    c := EventFilterAsWritten(d, true, MouseRelease(RightButton, p), OneScale(), _ => true, _ => true, _ => false);
    c := EventFilterAsWritten(d, true, MousePress(LeftButton, p), OneScale(), _ => true, _ => true, _ => false);
    current, pressed, isSelected := d.currentScale, d.isMousePressed, 7 in d.selected;
  }

  /** With the corrected press the same clicks leave the scale selected. */
  method ReselectExample() returns (current: Option<nat>, pressed: bool, isSelected: bool)
    ensures current == Some(7) && pressed && isSelected
  {
    var d := new QwtPlotScaleEventDispatcher(OneScale());
    assert d.scaleCaches == [ScaleCache(Some(7), Rect(0, 0, 10, 10), true)];
    var p := Point(5, 5);
    var c := EventFilter(d, true, MousePress(LeftButton, p), OneScale(), _ => true, _ => true, _ => false);
    c := EventFilter(d, true, MouseRelease(RightButton, p), OneScale(), _ => true, _ => true, _ => false);
    c := EventFilter(d, true, MousePress(LeftButton, p), OneScale(), _ => true, _ => true, _ => false);
    current, pressed, isSelected := d.currentScale, d.isMousePressed, 7 in d.selected;
  }
}
