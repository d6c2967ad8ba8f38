/** QwtPlotMagnifier: a table of the axes it may zoom and rescale(factor),
    which zooms every plot of the host's plot list about the centre of each
    enabled axis. The plots' canvas maps are passed in as values; a
    non-linear transformation is a pair of functions. */
module Magnifier {
  import opened Types
  import Axis

  /** Qt's qFuzzyCompare for doubles: |p1 - p2| * 10^12 <= min(|p1|, |p2|). */
  predicate QFuzzyCompare(p1: real, p2: real)
  {
    Abs(p1 - p2) * 1000000000000.0 <= MinR(Abs(p1), Abs(p2))
  }

  /** Compared with 0, qFuzzyCompare holds only for 0 itself. */
  lemma {:induction false} FuzzyCompareWithZero(f: real)
    ensures QFuzzyCompare(f, 0.0) <==> f == 0.0
  {
    if QFuzzyCompare(f, 0.0) {
      assert MinR(Abs(f), 0.0) <= 0.0;
      assert Abs(f) * 1000000000000.0 <= 0.0;
    }
  }

  /** A scale transformation and its inverse. */
  datatype Transform = Transform(fwd: real -> real, inv: real -> real)

  /** What rescale reads of a canvas map: the scale interval and the
      transformation, if any. */
  datatype ScaleMap = ScaleMap(s1: real, s2: real, transformation: Option<Transform>)

  /** A plot as rescale sees it: its autoReplot flag and the canvas maps
      of its four axes. */
  datatype PlotScales = PlotScales(autoReplot: bool, maps: seq<ScaleMap>)

  /** The interval rescale gives one enabled axis: in paint-device
      coordinates (through the transformation when there is one) the centre
      stays and the half-width is multiplied by factor. */
  function ZoomedInterval(m: ScaleMap, factor: real): (r: (real, real))
    ensures m.transformation.None? ==> r.0 + r.1 == m.s1 + m.s2 && r.1 - r.0 == (m.s2 - m.s1) * factor
  {
    var v1 := if m.transformation.Some? then m.transformation.value.fwd(m.s1) else m.s1;
    var v2 := if m.transformation.Some? then m.transformation.value.fwd(m.s2) else m.s2;
    var center := 0.5 * (v1 + v2);
    var width2 := 0.5 * (v2 - v1) * factor;
    if m.transformation.Some? then
      (m.transformation.value.inv(center - width2), m.transformation.value.inv(center + width2))
    else (center - width2, center + width2)
  }

  /** The paint-device position of a scale value. */
  function Paint(m: ScaleMap, v: real): real
  {
    if m.transformation.Some? then m.transformation.value.fwd(v) else v
  }

  /** The transformation maps its inverse's results back. */
  ghost predicate InverseHolds(m: ScaleMap)
  {
    m.transformation.Some? ==> forall x :: m.transformation.value.fwd(m.transformation.value.inv(x)) == x
  }

  /** Zooming keeps the centre of the axis in paint-device coordinates and
      multiplies its extent there by factor. */
  lemma {:induction false} ZoomKeepsCentre(m: ScaleMap, factor: real)
    requires InverseHolds(m)
    ensures var r := ZoomedInterval(m, factor);
      Paint(m, r.0) + Paint(m, r.1) == Paint(m, m.s1) + Paint(m, m.s2) &&
      Paint(m, r.1) - Paint(m, r.0) == (Paint(m, m.s2) - Paint(m, m.s1)) * factor
  {
    var v1 := Paint(m, m.s1);
    var v2 := Paint(m, m.s2);
    var center := 0.5 * (v1 + v2);
    var width2 := 0.5 * (v2 - v1) * factor;
    var r := ZoomedInterval(m, factor);
    assert Paint(m, r.0) == center - width2;
    assert Paint(m, r.1) == center + width2;
  }

  /** Zooming a linear axis by f and then by 1/f restores it. */
  lemma {:induction false} ZoomUndo(s1: real, s2: real, f: real)
    requires f != 0.0
    ensures var r := ZoomedInterval(ScaleMap(s1, s2, None), f);
      ZoomedInterval(ScaleMap(r.0, r.1, None), 1.0 / f) == (s1, s2)
  {
    var r := ZoomedInterval(ScaleMap(s1, s2, None), f);
    ZoomKeepsCentre(ScaleMap(s1, s2, None), f);
    var m2 := ScaleMap(r.0, r.1, None);
    ZoomKeepsCentre(m2, 1.0 / f);
    var q := ZoomedInterval(m2, 1.0 / f);
    assert r.1 - r.0 == (s2 - s1) * f;
    assert q.0 + q.1 == s1 + s2;
    calc {
      q.1 - q.0;
      (r.1 - r.0) * (1.0 / f);
      (s2 - s1) * f * (1.0 / f);
      { assert f * (1.0 / f) == 1.0; }
      s2 - s1;
    }
  }

  /** The plot a magnifier's canvas belongs to: absent, or a host or
      parasite plot. */
  datatype HostPlot = NoPlot | PlotOf(isParasite: bool)

  /** Whether rescale(factor) does any work: there is a non-parasite plot
      and |factor| is neither fuzzy-equal to 1 nor 0. */
  predicate RescaleApplies(host: HostPlot, factor: real)
  {
    host.PlotOf? && !host.isParasite && !QFuzzyCompare(Abs(factor), 1.0) && !QFuzzyCompare(Abs(factor), 0.0)
  }

  class QwtPlotMagnifier {
    const isAxisEnabled: array<bool>

    ghost predicate Valid()
      reads this
    {
      isAxisEnabled.Length == Axis.AxisPositions
    }

    /** Every axis starts enabled. */
    constructor()
      ensures Valid()
      ensures forall a :: 0 <= a < Axis.AxisPositions ==> AxisEnabled(a)
    {
      var t := new bool[Axis.AxisPositions];
      var axis := 0;
      while axis < Axis.AxisPositions
        invariant 0 <= axis <= Axis.AxisPositions
        invariant forall a :: 0 <= a < axis ==> t[a]
      {
        t[axis] := true;
        axis := axis + 1;
      }
      isAxisEnabled := t;
    }

    /** setAxisEnabled: an invalid axis is ignored; the other axes keep
      their flags. */
    method SetAxisEnabled(axisId: int, on: bool)
      requires Valid()
      modifies isAxisEnabled
      ensures Axis.IsValid(axisId) ==> AxisEnabled(axisId) == on
      ensures forall a :: 0 <= a < Axis.AxisPositions && a != axisId ==> isAxisEnabled[a] == old(isAxisEnabled[a])
    {
      if Axis.IsValid(axisId) {
        isAxisEnabled[axisId] := on;
      }
    }

    /** isAxisEnabled: true for an invalid axis. */
    predicate AxisEnabled(axisId: int)
      requires Valid()
      reads this, isAxisEnabled
    {
      if Axis.IsValid(axisId) then isAxisEnabled[axisId] else true
    }

    /** One plot after rescale: the same autoReplot flag, each enabled axis
      zoomed by factor and the others unchanged. */
    ghost predicate Rescaled(before: PlotScales, after: PlotScales, factor: real)
      requires Valid()
      reads this, isAxisEnabled
    {
      after.autoReplot == before.autoReplot &&
      |before.maps| == Axis.AxisPositions && |after.maps| == Axis.AxisPositions &&
      forall a :: 0 <= a < Axis.AxisPositions ==>
        after.maps[a] == if AxisEnabled(a) then Zoom(before.maps[a], factor) else before.maps[a]
    }

    /** rescale: when it applies, every plot of the list has each enabled
      axis zoomed and keeps its autoReplot flag and its other axes, and the
      host is replotted once; otherwise nothing changes. */
    method Rescale(host: HostPlot, plots: seq<PlotScales>, factor: real)
      returns (result: seq<PlotScales>, replotAll: bool)
      requires Valid()
      requires forall i :: 0 <= i < |plots| ==> |plots[i].maps| == Axis.AxisPositions
      ensures |result| == |plots|
      ensures !RescaleApplies(host, factor) ==> result == plots && !replotAll
      ensures RescaleApplies(host, factor) ==>
        (forall i :: 0 <= i < |plots| ==> Rescaled(plots[i], result[i], Abs(factor)))
      ensures replotAll <==>
        (RescaleApplies(host, factor) && |plots| > 0 && exists a :: 0 <= a < Axis.AxisPositions && isAxisEnabled[a])
    {
      if host.NoPlot? || host.isParasite {
        return plots, false;
      }
      var f := Abs(factor);
      if QFuzzyCompare(f, 1.0) || QFuzzyCompare(f, 0.0) {
        return plots, false;
      }
      replotAll := false;
      result := [];
      var i := 0;
      while i < |plots|
        invariant 0 <= i <= |plots| && |result| == i
        invariant forall j :: 0 <= j < i ==> Rescaled(plots[j], result[j], f)
        invariant replotAll <==> i > 0 && exists a :: 0 <= a < Axis.AxisPositions && isAxisEnabled[a]
      {
        var saved := plots[i].autoReplot;
        var maps := plots[i].maps;
        var axisPos := 0;
        var touched := false;
        while axisPos < Axis.AxisPositions
          invariant 0 <= axisPos <= Axis.AxisPositions && |maps| == Axis.AxisPositions
          invariant forall a :: 0 <= a < axisPos ==>
            maps[a] == if AxisEnabled(a) then Zoom(plots[i].maps[a], f) else plots[i].maps[a]
          invariant forall a :: axisPos <= a < Axis.AxisPositions ==> maps[a] == plots[i].maps[a]
          invariant touched <==> exists a :: 0 <= a < axisPos && isAxisEnabled[a]
        {
          if AxisEnabled(axisPos) {
            maps := maps[axisPos := Zoom(maps[axisPos], f)];
            touched := true;
          }
          axisPos := axisPos + 1;
        }
        replotAll := replotAll || touched;
        result := result + [PlotScales(saved, maps)];
        i := i + 1;
      }
    }
  }

  /** The canvas map after setAxisScale with the zoomed interval. */
  function Zoom(m: ScaleMap, factor: real): (z: ScaleMap)
    ensures z.transformation == m.transformation
    ensures InverseHolds(m) ==>
      Paint(z, z.s1) + Paint(z, z.s2) == Paint(m, m.s1) + Paint(m, m.s2) &&
      Paint(z, z.s2) - Paint(z, z.s1) == (Paint(m, m.s2) - Paint(m, m.s1)) * factor
  {
    var r := ZoomedInterval(m, factor);
    assert InverseHolds(m) ==>
      Paint(m, r.0) + Paint(m, r.1) == Paint(m, m.s1) + Paint(m, m.s2) &&
      Paint(m, r.1) - Paint(m, r.0) == (Paint(m, m.s2) - Paint(m, m.s1)) * factor by {
      if InverseHolds(m) {
        ZoomKeepsCentre(m, factor);
      }
    }
    m.(s1 := r.0, s2 := r.1)
  }
}
