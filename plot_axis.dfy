/** The axis part of QwtPlot (its ScaleData and the per-axis setters and
    getters): per axis a visibility flag, the autoscale flag, the manual
    range and step, the tick limits, the scale division with its validity
    flag, the scale engine and the scale widget. Scale engines and scale
    widgets are identities; the engines' autoScale and divideScale, which are
    not part of this model, are passed in as functions. */
module PlotAxis {
  import opened Types
  import Axis
  import QwtMath

  /** A scale engine (only its identity matters here). */
  datatype ScaleEngine = ScaleEngine(id: nat)

  /** A QwtScaleDiv: its bounds and tick values. */
  datatype ScaleDiv = ScaleDiv(lowerBound: real, upperBound: real, ticks: seq<real>)

  /** QwtScaleDiv(): bounds 0 and 0, no ticks. */
  const DefaultScaleDiv := ScaleDiv(0.0, 0.0, [])

  /** The default QwtInterval(): [0, -1], which is invalid. */
  const InvalidInterval := Interval(0.0, -1.0)

  datatype AxisData = AxisData(
    isVisible: bool, doAutoScale: bool,
    minValue: real, maxValue: real, stepSize: real,
    maxMajor: int, maxMinor: int,
    isValid: bool, scaleDiv: ScaleDiv,
    scaleEngine: ScaleEngine, scaleWidget: nat)

  /** AxisData(): visible, autoscaling, range [0, 1000], step 0, at most 8
      major and 5 minor ticks, scale division not valid. */
  function DefaultAxisData(engine: ScaleEngine, widget: nat): (d: AxisData)
    ensures d.isVisible && d.doAutoScale && !d.isValid
    ensures d.minValue == 0.0 && d.maxValue == 1000.0 && d.stepSize == 0.0
    ensures d.maxMajor == 8 && d.maxMinor == 5
  {
    AxisData(true, true, 0.0, 1000.0, 0.0, 8, 5, false, DefaultScaleDiv, engine, widget)
  }

  /** qFuzzyCompare for doubles: the difference, scaled by 1e12, does not
      exceed the smaller magnitude. */
  predicate QFuzzyCompare(p1: real, p2: real) {
    Abs(p1 - p2) * 1000000000000.0 <= MinR(Abs(p1), Abs(p2))
  }

  /** qFuzzyCompare holds of equal values. */
  lemma {:induction false} QFuzzyCompareReflexive(p: real)
    ensures QFuzzyCompare(p, p)
  {
    assert Abs(p - p) == 0.0;
  }

  /** QwtInterval::operator|= on intervals with closed borders: the hull of
      the valid operands, invalid when neither is valid. */
  function Unite(a: Interval, b: Interval): (r: Interval)
    ensures a.IsValid() || b.IsValid() ==> r.IsValid()
    ensures a.IsValid() ==> r.minValue <= a.minValue && a.maxValue <= r.maxValue
    ensures b.IsValid() ==> r.minValue <= b.minValue && b.maxValue <= r.maxValue
    ensures !a.IsValid() && !b.IsValid() ==> r == InvalidInterval
  {
    if !a.IsValid() && !b.IsValid() then InvalidInterval
    else if !a.IsValid() then b
    else if !b.IsValid() then a
    else Interval(if a.minValue < b.minValue then a.minValue else b.minValue,
                  if a.maxValue > b.maxValue then a.maxValue else b.maxValue)
  }

  /** What updateAxes reads of a plot item: the AutoScale attribute, its
      visibility, its axes and its bounding rectangle. */
  datatype PlotItemInfo = PlotItemInfo(autoScaleAttr: bool, visible: bool, xAxis: int, yAxis: int, rect: RectF)

  predicate ItemAxesValid(items: seq<PlotItemInfo>) {
    forall i :: 0 <= i < |items| ==> Axis.IsValid(items[i].xAxis) && Axis.IsValid(items[i].yAxis)
  }

  /** Whether an item contributes to the bounding intervals: it has the
      AutoScale attribute, is visible, and one of its axes autoscales. */
  predicate Contributes(it: PlotItemInfo, data: seq<AxisData>)
    requires |data| == 4 && Axis.IsValid(it.xAxis) && Axis.IsValid(it.yAxis)
  {
    it.autoScaleAttr && it.visible && (data[it.xAxis].doAutoScale || data[it.yAxis].doAutoScale)
  }

  /** One pass of updateAxes' first loop: the item's x range joins its x
      axis' interval (when its width is not negative), its y range its y axis'
      interval (when its height is not negative). */
  function AddItemBounds(bounds: seq<Interval>, it: PlotItemInfo, data: seq<AxisData>): (r: seq<Interval>)
    requires |bounds| == 4 && |data| == 4 && Axis.IsValid(it.xAxis) && Axis.IsValid(it.yAxis)
    ensures |r| == 4
    ensures !Contributes(it, data) ==> r == bounds
    ensures forall a :: 0 <= a < 4 && a != it.xAxis && a != it.yAxis ==> r[a] == bounds[a]
    ensures forall a :: 0 <= a < 4 ==> r[a] == bounds[a] || r[a].IsValid()
  {
    if !Contributes(it, data) then bounds
    else
      var b1 := if it.rect.width >= 0.0 then bounds[it.xAxis := Unite(bounds[it.xAxis], Interval(it.rect.x, it.rect.Right()))] else bounds;
      if it.rect.height >= 0.0 then b1[it.yAxis := Unite(b1[it.yAxis], Interval(it.rect.y, it.rect.Bottom()))] else b1
  }

  /** The bounding interval per axis after the items, in order. */
  function ItemBounds(items: seq<PlotItemInfo>, data: seq<AxisData>): (r: seq<Interval>)
    requires |data| == 4 && ItemAxesValid(items)
    ensures |r| == 4
    ensures forall a :: 0 <= a < 4 ==> r[a] == InvalidInterval || r[a].IsValid()
  {
    if |items| == 0 then [InvalidInterval, InvalidInterval, InvalidInterval, InvalidInterval]
    else AddItemBounds(ItemBounds(items[..|items| - 1], data), items[|items| - 1], data)
  }

  /** Adding an item never shrinks an interval that is already valid. */
  lemma {:induction false} AddItemBoundsGrows(bounds: seq<Interval>, it: PlotItemInfo, data: seq<AxisData>, a: int)
    requires |bounds| == 4 && |data| == 4 && Axis.IsValid(it.xAxis) && Axis.IsValid(it.yAxis)
    requires 0 <= a < 4 && bounds[a].IsValid()
    ensures var r := AddItemBounds(bounds, it, data);
      r[a].IsValid() && r[a].minValue <= bounds[a].minValue && bounds[a].maxValue <= r[a].maxValue
  {
  }

  /** Every contributing item's x range (with non-negative width) lies inside
      the bounding interval of its x axis. */
  lemma {:induction false} ItemBoundsCoverX(items: seq<PlotItemInfo>, data: seq<AxisData>, k: nat)
    requires |data| == 4 && ItemAxesValid(items) && k < |items|
    requires Contributes(items[k], data) && items[k].rect.width >= 0.0
    ensures var b := ItemBounds(items, data)[items[k].xAxis];
      b.IsValid() && b.minValue <= items[k].rect.x && items[k].rect.Right() <= b.maxValue
    decreases |items|
  {
    var n := |items| - 1;
    var prefix := items[..n];
    assert ItemAxesValid(prefix);
    if k == n {
    } else {
      assert prefix[k] == items[k];
      ItemBoundsCoverX(prefix, data, k);
      AddItemBoundsGrows(ItemBounds(prefix, data), items[n], data, items[k].xAxis);
    }
  }

  /** Every contributing item's y range (with non-negative height) lies
      inside the bounding interval of its y axis. */
  lemma {:induction false} ItemBoundsCoverY(items: seq<PlotItemInfo>, data: seq<AxisData>, k: nat)
    requires |data| == 4 && ItemAxesValid(items) && k < |items|
    requires Contributes(items[k], data) && items[k].rect.height >= 0.0
    ensures var b := ItemBounds(items, data)[items[k].yAxis];
      b.IsValid() && b.minValue <= items[k].rect.y && items[k].rect.Bottom() <= b.maxValue
    decreases |items|
  {
    var n := |items| - 1;
    var prefix := items[..n];
    assert ItemAxesValid(prefix);
    if k == n {
    } else {
      assert prefix[k] == items[k];
      ItemBoundsCoverY(prefix, data, k);
      AddItemBoundsGrows(ItemBounds(prefix, data), items[n], data, items[k].yAxis);
    }
  }

  /** An axis no contributing item is attached to keeps the invalid bounding
      interval, so updateAxes falls back to its manual range. */
  lemma {:induction false} ItemBoundsUntouched(items: seq<PlotItemInfo>, data: seq<AxisData>, a: int)
    requires |data| == 4 && ItemAxesValid(items) && 0 <= a < 4
    requires forall i :: 0 <= i < |items| && Contributes(items[i], data) ==> items[i].xAxis != a && items[i].yAxis != a
    ensures ItemBounds(items, data)[a] == InvalidInterval
    decreases |items|
  {
    if |items| > 0 {
      var n := |items| - 1;
      var prefix := items[..n];
      assert ItemAxesValid(prefix);
      forall i | 0 <= i < |prefix| && Contributes(prefix[i], data)
        ensures prefix[i].xAxis != a && prefix[i].yAxis != a
      {
        assert prefix[i] == items[i];
      }
      ItemBoundsUntouched(prefix, data, a);
    }
  }

  /** The scale division updateAxes leaves on one axis: recomputed from the
      autoscaled item range when the axis autoscales and items gave it a
      range, recomputed from the manual range when it was not valid, kept
      otherwise. The autoscaled range itself is not stored. */
  function UpdatedDiv(d: AxisData, interval: Interval,
                      autoScale: (ScaleEngine, int, real, real, real) -> (real, real, real),
                      divideScale: (ScaleEngine, real, real, int, int, real) -> ScaleDiv): ScaleDiv
  {
    if d.doAutoScale && interval.IsValid() then
      var (lo, hi, step) := autoScale(d.scaleEngine, d.maxMajor, interval.minValue, interval.maxValue, d.stepSize);
      divideScale(d.scaleEngine, lo, hi, d.maxMajor, d.maxMinor, step)
    else if !d.isValid then divideScale(d.scaleEngine, d.minValue, d.maxValue, d.maxMajor, d.maxMinor, d.stepSize)
    else d.scaleDiv
  }

  class QwtPlotAxes {
    var axisData: seq<AxisData>
    /** How often autoRefresh() and updateLayout() were requested. */
    var refreshCount: nat
    var layoutCount: nat

    ghost predicate Valid()
      reads this
    {
      |axisData| == 4
    }

    /** QwtPlot::initAxesData: default data on every axis, with the right and
      top axes hidden. */
    constructor(engines: seq<ScaleEngine>, widgets: seq<nat>)
      requires |engines| == 4 && |widgets| == 4
      ensures Valid()
      ensures forall a :: 0 <= a < 4 ==>
        axisData[a].doAutoScale && !axisData[a].isValid &&
        axisData[a].minValue == 0.0 && axisData[a].maxValue == 1000.0 && axisData[a].stepSize == 0.0 &&
        axisData[a].maxMajor == 8 && axisData[a].maxMinor == 5 &&
        axisData[a].scaleEngine == engines[a] && axisData[a].scaleWidget == widgets[a]
      ensures axisData[Axis.YLeft].isVisible && axisData[Axis.XBottom].isVisible
      ensures !axisData[Axis.YRight].isVisible && !axisData[Axis.XTop].isVisible
      ensures refreshCount == 0 && layoutCount == 0
    {
      var d := [DefaultAxisData(engines[0], widgets[0]), DefaultAxisData(engines[1], widgets[1]),
                DefaultAxisData(engines[2], widgets[2]), DefaultAxisData(engines[3], widgets[3])];
      d := d[Axis.YRight := d[Axis.YRight].(isVisible := false)];
      d := d[Axis.XTop := d[Axis.XTop].(isVisible := false)];
      axisData := d;
      refreshCount, layoutCount := 0, 0;
    }

    /** QwtPlot::axisWidget: null for an invalid axis. */
    function AxisWidget(axisId: int): (r: Option<nat>)
      requires Valid()
      reads this
      ensures r.Some? <==> Axis.IsValid(axisId)
      ensures r.Some? ==> r.value == axisData[axisId].scaleWidget
    {
      if Axis.IsValid(axisId) then Some(axisData[axisId].scaleWidget) else None
    }

    /** QwtPlot::axisScaleEngine: null for an invalid axis. */
    function AxisScaleEngine(axisId: int): (r: Option<ScaleEngine>)
      requires Valid()
      reads this
      ensures r.Some? <==> Axis.IsValid(axisId)
      ensures r.Some? ==> r.value == axisData[axisId].scaleEngine
    {
      if Axis.IsValid(axisId) then Some(axisData[axisId].scaleEngine) else None
    }

    /** QwtPlot::axisAutoScale: false for an invalid axis. */
    function AxisAutoScale(axisId: int): (r: bool)
      requires Valid()
      reads this
      ensures r <==> Axis.IsValid(axisId) && axisData[axisId].doAutoScale
    {
      Axis.IsValid(axisId) && axisData[axisId].doAutoScale
    }

    /** QwtPlot::isAxisVisible: false for an invalid axis. */
    function IsAxisVisible(axisId: int): (r: bool)
      requires Valid()
      reads this
      ensures r <==> Axis.IsValid(axisId) && axisData[axisId].isVisible
    {
      Axis.IsValid(axisId) && axisData[axisId].isVisible
    }

    /** QwtPlot::axisMaxMajor: 0 for an invalid axis. */
    function AxisMaxMajor(axisId: int): (r: int)
      requires Valid()
      reads this
      ensures !Axis.IsValid(axisId) ==> r == 0
      ensures Axis.IsValid(axisId) ==> r == axisData[axisId].maxMajor
    {
      if Axis.IsValid(axisId) then axisData[axisId].maxMajor else 0
    }

    /** QwtPlot::axisMaxMinor: 0 for an invalid axis. */
    function AxisMaxMinor(axisId: int): (r: int)
      requires Valid()
      reads this
      ensures !Axis.IsValid(axisId) ==> r == 0
      ensures Axis.IsValid(axisId) ==> r == axisData[axisId].maxMinor
    {
      if Axis.IsValid(axisId) then axisData[axisId].maxMinor else 0
    }

    /** QwtPlot::axisStepSize: 0 for an invalid axis. */
    function AxisStepSize(axisId: int): (r: real)
      requires Valid()
      reads this
      ensures !Axis.IsValid(axisId) ==> r == 0.0
      ensures Axis.IsValid(axisId) ==> r == axisData[axisId].stepSize
    {
      if Axis.IsValid(axisId) then axisData[axisId].stepSize else 0.0
    }

    /** QwtPlot::axisInterval: the bounds of the scale division, the invalid
      interval for an invalid axis. */
    function AxisInterval(axisId: int): (r: Interval)
      requires Valid()
      reads this
      ensures !Axis.IsValid(axisId) ==> !r.IsValid()
      ensures Axis.IsValid(axisId) ==>
        r == Interval(axisData[axisId].scaleDiv.lowerBound, axisData[axisId].scaleDiv.upperBound)
    {
      if Axis.IsValid(axisId) then Interval(axisData[axisId].scaleDiv.lowerBound, axisData[axisId].scaleDiv.upperBound)
      else InvalidInterval
    }

    /** QwtPlot::visibleXAxisId: XBottom when visible, else XTop when visible,
      else XBottom. */
    function VisibleXAxisId(): (r: int)
      requires Valid()
      reads this
      ensures Axis.IsXAxis(r)
      ensures r == Axis.XTop <==> !IsAxisVisible(Axis.XBottom) && IsAxisVisible(Axis.XTop)
      ensures IsAxisVisible(Axis.XBottom) || IsAxisVisible(Axis.XTop) ==> IsAxisVisible(r)
    {
      if IsAxisVisible(Axis.XBottom) then Axis.XBottom
      else if IsAxisVisible(Axis.XTop) then Axis.XTop
      else Axis.XBottom
    }

    /** QwtPlot::visibleYAxisId: YLeft when visible, else YRight when visible,
      else YLeft. */
    function VisibleYAxisId(): (r: int)
      requires Valid()
      reads this
      ensures Axis.IsYAxis(r)
      ensures r == Axis.YRight <==> !IsAxisVisible(Axis.YLeft) && IsAxisVisible(Axis.YRight)
      ensures IsAxisVisible(Axis.YLeft) || IsAxisVisible(Axis.YRight) ==> IsAxisVisible(r)
    {
      if IsAxisVisible(Axis.YLeft) then Axis.YLeft
      else if IsAxisVisible(Axis.YRight) then Axis.YRight
      else Axis.YLeft
    }

    /** QwtPlot::setAxisVisible: only a valid axis whose flag differs changes,
      and only then is the layout updated. */
    method SetAxisVisible(axisId: int, on: bool)
      requires Valid()
      modifies this
      ensures Valid()
      ensures Axis.IsValid(axisId) ==> axisData == old(axisData[axisId := axisData[axisId].(isVisible := on)])
      ensures !Axis.IsValid(axisId) ==> axisData == old(axisData)
      ensures layoutCount == old(layoutCount) + (if Axis.IsValid(axisId) && on != old(axisData[axisId].isVisible) then 1 else 0)
      ensures refreshCount == old(refreshCount)
    {
      if Axis.IsValid(axisId) && on != axisData[axisId].isVisible {
        axisData := axisData[axisId := axisData[axisId].(isVisible := on)];
        layoutCount := layoutCount + 1;
      }
    }

    /** QwtPlot::setAxisAutoScale: only a valid axis whose flag differs changes
      and refreshes. */
    method SetAxisAutoScale(axisId: int, on: bool)
      requires Valid()
      modifies this
      ensures Valid()
      ensures Axis.IsValid(axisId) ==> axisData == old(axisData[axisId := axisData[axisId].(doAutoScale := on)])
      ensures !Axis.IsValid(axisId) ==> axisData == old(axisData)
      ensures refreshCount == old(refreshCount) + (if Axis.IsValid(axisId) && on != old(axisData[axisId].doAutoScale) then 1 else 0)
      ensures layoutCount == old(layoutCount)
    {
      if Axis.IsValid(axisId) && axisData[axisId].doAutoScale != on {
        axisData := axisData[axisId := axisData[axisId].(doAutoScale := on)];
        refreshCount := refreshCount + 1;
      }
    }

    /** QwtPlot::setAxisScale: nothing changes when min, max and step are all
      fuzzy-equal to the stored ones; otherwise autoscaling is switched off,
      the division is marked invalid and the range and step are stored. */
    method SetAxisScale(axisId: int, min: real, max: real, stepSize: real)
      requires Valid()
      modifies this
      ensures Valid()
      ensures !Axis.IsValid(axisId) ==> axisData == old(axisData) && refreshCount == old(refreshCount)
      ensures Axis.IsValid(axisId) ==>
        var d := old(axisData[axisId]);
        if QFuzzyCompare(d.minValue, min) && QFuzzyCompare(d.maxValue, max) && QFuzzyCompare(d.stepSize, stepSize)
        then axisData == old(axisData) && refreshCount == old(refreshCount)
        else (axisData == old(axisData)[axisId := d.(doAutoScale := false, isValid := false, minValue := min, maxValue := max, stepSize := stepSize)] &&
              refreshCount == old(refreshCount) + 1)
      ensures layoutCount == old(layoutCount)
    {
      if Axis.IsValid(axisId) {
        var d := axisData[axisId];
        if QFuzzyCompare(d.minValue, min) && QFuzzyCompare(d.maxValue, max) && QFuzzyCompare(d.stepSize, stepSize) {
          return;
        }
        axisData := axisData[axisId := d.(doAutoScale := false, isValid := false, minValue := min, maxValue := max, stepSize := stepSize)];
        refreshCount := refreshCount + 1;
      }
    }

    /** QwtPlot::setAxisScaleDiv: unless the new division is fuzzy-equal to the
      stored one (QwtScaleDiv::fuzzyCompare, passed in), autoscaling is
      switched off and the division is stored and marked valid. */
    method SetAxisScaleDiv(axisId: int, scaleDiv: ScaleDiv, fuzzyEqual: (ScaleDiv, ScaleDiv) -> bool)
      requires Valid()
      modifies this
      ensures Valid()
      ensures Axis.IsValid(axisId) && !fuzzyEqual(old(axisData[axisId].scaleDiv), scaleDiv) ==>
        axisData == old(axisData[axisId := axisData[axisId].(doAutoScale := false, scaleDiv := scaleDiv, isValid := true)]) &&
        refreshCount == old(refreshCount) + 1
      ensures !Axis.IsValid(axisId) || fuzzyEqual(old(axisData[axisId].scaleDiv), scaleDiv) ==>
        axisData == old(axisData) && refreshCount == old(refreshCount)
      ensures layoutCount == old(layoutCount)
    {
      if Axis.IsValid(axisId) {
        var d := axisData[axisId];
        if fuzzyEqual(d.scaleDiv, scaleDiv) {
          return;
        }
        axisData := axisData[axisId := d.(doAutoScale := false, scaleDiv := scaleDiv, isValid := true)];
        refreshCount := refreshCount + 1;
      }
    }

    /** QwtPlot::setAxisScaleEngine: a null engine or an invalid axis is
      ignored; otherwise the engine is replaced and the division invalidated. */
    method SetAxisScaleEngine(axisId: int, engine: Option<ScaleEngine>)
      requires Valid()
      modifies this
      ensures Valid()
      ensures Axis.IsValid(axisId) && engine.Some? ==>
        axisData == old(axisData[axisId := axisData[axisId].(scaleEngine := engine.value, isValid := false)]) &&
        refreshCount == old(refreshCount) + 1
      ensures !Axis.IsValid(axisId) || engine.None? ==> axisData == old(axisData) && refreshCount == old(refreshCount)
      ensures layoutCount == old(layoutCount)
    {
      if Axis.IsValid(axisId) && engine.Some? {
        axisData := axisData[axisId := axisData[axisId].(scaleEngine := engine.value, isValid := false)];
        refreshCount := refreshCount + 1;
      }
    }

    /** QwtPlot::setAxisMaxMinor: the value is bounded to [0, 100]; only a
      change is stored, and it invalidates the division. */
    method SetAxisMaxMinor(axisId: int, maxMinor: int)
      requires Valid()
      modifies this
      ensures Valid()
      ensures Axis.IsValid(axisId) ==> AxisMaxMinor(axisId) == QwtMath.QBound(0, maxMinor, 100)
      ensures Axis.IsValid(axisId) ==> 0 <= AxisMaxMinor(axisId) <= 100
      ensures Axis.IsValid(axisId) && QwtMath.QBound(0, maxMinor, 100) != old(axisData[axisId].maxMinor) ==>
        axisData == old(axisData[axisId := axisData[axisId].(maxMinor := QwtMath.QBound(0, maxMinor, 100), isValid := false)]) &&
        refreshCount == old(refreshCount) + 1
      ensures !Axis.IsValid(axisId) || QwtMath.QBound(0, maxMinor, 100) == old(axisData[axisId].maxMinor) ==>
        axisData == old(axisData) && refreshCount == old(refreshCount)
      ensures layoutCount == old(layoutCount)
    {
      if Axis.IsValid(axisId) {
        var v := QwtMath.QBound(0, maxMinor, 100);
        QwtMath.QBoundIsClamp(0, maxMinor, 100);
        if v != axisData[axisId].maxMinor {
          axisData := axisData[axisId := axisData[axisId].(maxMinor := v, isValid := false)];
          refreshCount := refreshCount + 1;
        }
      }
    }

    /** QwtPlot::setAxisMaxMajor: the value is bounded to [1, 10000]; only a
      change is stored, and it invalidates the division. */
    method SetAxisMaxMajor(axisId: int, maxMajor: int)
      requires Valid()
      modifies this
      ensures Valid()
      ensures Axis.IsValid(axisId) ==> AxisMaxMajor(axisId) == QwtMath.QBound(1, maxMajor, 10000)
      ensures Axis.IsValid(axisId) ==> 1 <= AxisMaxMajor(axisId) <= 10000
      ensures Axis.IsValid(axisId) && QwtMath.QBound(1, maxMajor, 10000) != old(axisData[axisId].maxMajor) ==>
        axisData == old(axisData[axisId := axisData[axisId].(maxMajor := QwtMath.QBound(1, maxMajor, 10000), isValid := false)]) &&
        refreshCount == old(refreshCount) + 1
      ensures !Axis.IsValid(axisId) || QwtMath.QBound(1, maxMajor, 10000) == old(axisData[axisId].maxMajor) ==>
        axisData == old(axisData) && refreshCount == old(refreshCount)
      ensures layoutCount == old(layoutCount)
    {
      if Axis.IsValid(axisId) {
        var v := QwtMath.QBound(1, maxMajor, 10000);
        QwtMath.QBoundIsClamp(1, maxMajor, 10000);
        if v != axisData[axisId].maxMajor {
          axisData := axisData[axisId := axisData[axisId].(maxMajor := v, isValid := false)];
          refreshCount := refreshCount + 1;
        }
      }
    }

    /** QwtPlot::updateAxes: the first loop joins the bounding rectangles of
      the contributing items per axis; the second gives every axis the scale
      division UpdatedDiv describes and marks it valid. Nothing else in the
      axis data changes. */
    method UpdateAxes(items: seq<PlotItemInfo>,
                      autoScale: (ScaleEngine, int, real, real, real) -> (real, real, real),
                      divideScale: (ScaleEngine, real, real, int, int, real) -> ScaleDiv)
      requires Valid() && ItemAxesValid(items)
      modifies this
      ensures Valid()
      ensures forall a :: 0 <= a < 4 ==>
        axisData[a] == old(axisData[a]).(isValid := true,
          scaleDiv := UpdatedDiv(old(axisData[a]), ItemBounds(items, old(axisData))[a], autoScale, divideScale))
      ensures refreshCount == old(refreshCount) && layoutCount == old(layoutCount)
    {
      var bounds := [InvalidInterval, InvalidInterval, InvalidInterval, InvalidInterval];
      for i := 0 to |items|
        invariant ItemAxesValid(items[..i])
        invariant bounds == ItemBounds(items[..i], axisData)
        invariant refreshCount == old(refreshCount) && layoutCount == old(layoutCount)
      {
        assert items[..i + 1][..i] == items[..i];
        bounds := AddItemBounds(bounds, items[i], axisData);
      }
      assert items[..|items|] == items;
      ghost var before := axisData;
      for axisPos := 0 to 4
        invariant |axisData| == 4
        invariant forall a :: 0 <= a < axisPos ==>
          axisData[a] == before[a].(isValid := true, scaleDiv := UpdatedDiv(before[a], bounds[a], autoScale, divideScale))
        invariant forall a :: axisPos <= a < 4 ==> axisData[a] == before[a]
        invariant refreshCount == old(refreshCount) && layoutCount == old(layoutCount)
      {
        var d := axisData[axisPos];
        var minValue := d.minValue;
        var maxValue := d.maxValue;
        var stepSize := d.stepSize;
        var interval := bounds[axisPos];
        if d.doAutoScale && interval.IsValid() {
          d := d.(isValid := false);
          var (lo, hi, step) := autoScale(d.scaleEngine, d.maxMajor, interval.minValue, interval.maxValue, stepSize);
          minValue, maxValue, stepSize := lo, hi, step;
        }
        if !d.isValid {
          d := d.(scaleDiv := divideScale(d.scaleEngine, minValue, maxValue, d.maxMajor, d.maxMinor, stepSize), isValid := true);
        }
        axisData := axisData[axisPos := d];
      }
    }
  }
}
