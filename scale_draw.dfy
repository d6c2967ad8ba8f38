/** QwtAbstractScaleDraw's state: the enabled components, the tick-length
    table, the clamped pen width, spacing and minimum extent, the selection
    flag and the label cache keyed by value. Label text comes from an
    overridable label(value), passed in as a function. */
module ScaleDraw {
  import opened QwtMath
  import opened PlotAxis

  /** QwtAbstractScaleDraw::ScaleComponent (bits 0x01, 0x02, 0x04). */
  datatype ScaleComponent = Backbone | Ticks | Labels

  /** QwtScaleDiv::TickType. */
  const NoTick: int := -1
  const MinorTick: int := 0
  const MediumTick: int := 1
  const MajorTick: int := 2
  const NTickTypes: int := 3

  /** The largest tick length setTickLength stores. */
  const MaxTickLen: real := 1000.0

  predicate IsTickType(tickType: int)
  {
    MinorTick <= tickType <= MajorTick
  }

  /** The value a tick length is stored as: clamped to [0, 1000]. */
  function ClampTickLength(length: real): (r: real)
    ensures 0.0 <= r <= MaxTickLen
    ensures 0.0 <= length <= MaxTickLen ==> r == length
    ensures length < 0.0 ==> r == 0.0
    ensures length > MaxTickLen ==> r == MaxTickLen
  {
    if length < 0.0 then 0.0 else if length > MaxTickLen then MaxTickLen else length
  }

  /** Qt's qFuzzyIsNull for doubles: |d| <= 1e-12. */
  predicate QFuzzyIsNull(d: real)
  {
    -0.000000000001 <= d <= 0.000000000001
  }

  /** The value setPenWidthF, setSpacing and setMinimumExtent store. */
  function NonNegative(v: real): (r: real)
    ensures r >= 0.0
    ensures v >= 0.0 ==> r == v
    ensures v < 0.0 ==> r == 0.0
  {
    if v < 0.0 then 0.0 else v
  }

  class QwtAbstractScaleDraw {
    var components: set<ScaleComponent>
    var scaleDiv: ScaleDiv
    /** The scale map's interval, set from the scale division's bounds. */
    var mapS1: real
    var mapS2: real
    var spacing: real
    const tickLength: array<real>
    var penWidthF: real
    var penWidthOffset: real
    var isSelected: bool
    var minExtent: real
    var labelCache: map<real, string>

    ghost predicate Valid()
      reads this, tickLength
    {
      tickLength.Length == NTickTypes &&
      (forall i :: 0 <= i < tickLength.Length ==> 0.0 <= tickLength[i] <= MaxTickLen)
    }

    /** Every component, tick lengths 4/6/8, spacing 4, pen width 0,
      minimum extent 0, selection offset 1, not selected, empty cache. */
    constructor()
      ensures Valid()
      ensures components == {Backbone, Ticks, Labels}
      ensures tickLength[..] == [4.0, 6.0, 8.0]
      ensures spacing == 4.0 && penWidthF == 0.0 && minExtent == 0.0
      ensures penWidthOffset == 1.0 && !isSelected
      ensures scaleDiv == DefaultScaleDiv && labelCache == map[]
    {
      components := {Backbone, Ticks, Labels};
      scaleDiv := DefaultScaleDiv;
      mapS1, mapS2 := 0.0, 0.0;
      spacing, penWidthF, penWidthOffset := 4.0, 0.0, 1.0;
      isSelected, minExtent := false, 0.0;
      labelCache := map[];
      var t := new real[3];
      t[0], t[1], t[2] := 4.0, 6.0, 8.0;
      tickLength := t;
    }

    /** enableComponent: sets or clears exactly one component. */
    method EnableComponent(component: ScaleComponent, enable: bool)
      modifies this
      ensures HasComponent(component) == enable
      ensures forall c :: c != component ==> (HasComponent(c) <==> c in old(components))
      ensures labelCache == old(labelCache) && spacing == old(spacing)
    {
      if enable {
        components := components + {component};
      } else {
        components := components - {component};
      }
    }

    predicate HasComponent(component: ScaleComponent)
      reads this
    {
      component in components
    }

    /** setScaleDiv: stores the division, moves the map's interval to its
      bounds and empties the label cache. */
    method SetScaleDiv(div: ScaleDiv)
      modifies this
      ensures scaleDiv == div && mapS1 == div.lowerBound && mapS2 == div.upperBound
      ensures labelCache == map[]
      ensures components == old(components) && spacing == old(spacing)
    {
      scaleDiv := div;
      mapS1, mapS2 := div.lowerBound, div.upperBound;
      labelCache := map[];
    }

    method SetPenWidthF(width: real)
      modifies this
      ensures penWidthF == NonNegative(width)
      ensures spacing == old(spacing) && minExtent == old(minExtent) && labelCache == old(labelCache)
    {
      penWidthF := NonNegative(width);
    }

    method SetSelected(on: bool)
      modifies this
      ensures isSelected == on
      ensures penWidthF == old(penWidthF) && labelCache == old(labelCache)
    {
      isSelected := on;
    }

    /** setSelectedPenWidthOffset: stored as given. */
    method SetSelectedPenWidthOffset(offset: real)
      modifies this
      ensures penWidthOffset == offset
      ensures penWidthF == old(penWidthF) && isSelected == old(isSelected)
    {
      penWidthOffset := offset;
    }

    /** The pen width draw() uses: the stored width, or one more than the
      offset for a zero width, plus the offset while selected. */
    function DrawPenWidth(): (w: real)
      reads this
      ensures !isSelected ==> w == penWidthF
      ensures isSelected && penWidthOffset >= 0.0 ==> w >= penWidthF
      ensures isSelected ==> w - penWidthOffset == if QFuzzyIsNull(penWidthF) then 1.0 else penWidthF
    {
      if !isSelected then penWidthF
      else if QFuzzyIsNull(penWidthF) then 1.0 + penWidthOffset
      else penWidthF + penWidthOffset
    }

    method SetSpacing(s: real)
      modifies this
      ensures spacing == NonNegative(s)
      ensures penWidthF == old(penWidthF) && minExtent == old(minExtent) && labelCache == old(labelCache)
    {
      spacing := NonNegative(s);
    }

    method SetMinimumExtent(e: real)
      modifies this
      ensures minExtent == NonNegative(e)
      ensures penWidthF == old(penWidthF) && spacing == old(spacing) && labelCache == old(labelCache)
    {
      minExtent := NonNegative(e);
    }

    /** setTickLength: an invalid tick type changes nothing; otherwise the
      length is stored clamped to [0, 1000], and the other types keep
      theirs. */
    method SetTickLength(tickType: int, length: real)
      requires Valid()
      modifies tickLength
      ensures Valid()
      ensures IsTickType(tickType) ==> TickLength(tickType) == ClampTickLength(length)
      ensures forall t :: 0 <= t < NTickTypes && t != tickType ==> tickLength[t] == old(tickLength[t])
    {
      if tickType < MinorTick || tickType > MajorTick {
        return;
      }
      tickLength[tickType] := ClampTickLength(length);
    }

    /** tickLength: 0 for an invalid tick type. */
    function TickLength(tickType: int): (r: real)
      requires Valid()
      reads this, tickLength
      ensures 0.0 <= r <= MaxTickLen
      ensures !IsTickType(tickType) ==> r == 0.0
    {
      if tickType < MinorTick || tickType > MajorTick then 0.0 else tickLength[tickType]
    }

    /** maxTickLength: the longest of the three stored lengths. */
    method MaxTickLength() returns (length: real)
      requires Valid()
      ensures forall t :: 0 <= t < NTickTypes ==> tickLength[t] <= length
      ensures exists t :: 0 <= t < NTickTypes && tickLength[t] == length
    {
      length := 0.0;
      var i := 0;
      while i < NTickTypes
        invariant 0 <= i <= NTickTypes
        invariant forall t :: 0 <= t < i ==> tickLength[t] <= length
        invariant length == 0.0 || exists t :: 0 <= t < i && tickLength[t] == length
      {
        length := MaxF(length, tickLength[i]);
        i := i + 1;
      }
      if length == 0.0 {
        assert tickLength[0] == 0.0;
      }
    }

    /** Every cached label is the one label() gives for its value. */
    ghost predicate CacheConsistent(labelOf: real -> string)
      reads this
    {
      forall v :: v in labelCache ==> labelCache[v] == labelOf(v)
    }

    /** tickLabel: a cached value is returned from the cache unchanged;
      otherwise label(value) is stored and returned. */
    method TickLabel(value: real, labelOf: real -> string) returns (lbl: string)
      modifies this
      ensures value in old(labelCache) ==> lbl == old(labelCache)[value] && labelCache == old(labelCache)
      ensures value !in old(labelCache) ==> lbl == labelOf(value) && labelCache == old(labelCache)[value := lbl]
      ensures value in labelCache && labelCache[value] == lbl
      ensures old(CacheConsistent(labelOf)) ==> CacheConsistent(labelOf) && lbl == labelOf(value)
      ensures scaleDiv == old(scaleDiv) && spacing == old(spacing) && components == old(components)
    {
      if value in labelCache {
        lbl := labelCache[value];
        return;
      }
      lbl := labelOf(value);
      labelCache := labelCache[value := lbl];
    }

    /** invalidateCache: empties the label cache. */
    method InvalidateCache()
      modifies this
      ensures labelCache == map[]
      ensures scaleDiv == old(scaleDiv) && spacing == old(spacing) && components == old(components)
    {
      labelCache := map[];
    }
  }

  /** A second tickLabel for the same value returns the first one's label,
    whatever label() now returns, until the cache is emptied. */
  method TickLabelTwice(d: QwtAbstractScaleDraw, value: real, first: real -> string, second: real -> string)
    returns (l1: string, l2: string)
    modifies d
    ensures l1 == l2
    ensures value !in old(d.labelCache) ==> l2 == first(value)
  {
    l1 := d.TickLabel(value, first);
    l2 := d.TickLabel(value, second);
  }
}
