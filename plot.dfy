/** QwtPlot's bookkeeping: the autoReplot flag around replot(), hosts and
    their parasite plots (a parasite is a child plot marked as parasite and
    shares the host's canvas), the axis-sharing connections of parasites,
    the edge margins that stack the axes of a host and its parasites, and
    the ranges rescaleAxes() hands to setAxisScale(). Plots are identified
    by their index in the plot table; Qt's parent/child relation is kept as
    each plot's parent and the ordered list of its child plots. */
module Plot {
  import opened Types
  import Axis

  /** One plot's state: Qt parent, parasite mark, autoReplot with the
    value saveAutoReplotState() parked, axis visibility and whether each
    axis is connected to the host's axis. */
  datatype PlotState = PlotState(
    parent: Option<nat>, isParasite: bool,
    autoReplot: bool, autoReplotTemp: bool,
    axisVisible: seq<bool>, shareConn: seq<bool>)

  /** A new plot: no parasite, autoReplot off, YLeft and XBottom visible,
    no sharing connections. */
  function NewPlotState(parent: Option<nat>): (s: PlotState)
    ensures |s.axisVisible| == 4 && |s.shareConn| == 4
    ensures s.axisVisible[Axis.YLeft] && s.axisVisible[Axis.XBottom]
    ensures !s.axisVisible[Axis.YRight] && !s.axisVisible[Axis.XTop]
    ensures !s.isParasite && !s.autoReplot && s.parent == parent
  {
    PlotState(parent, false, false, false, [true, false, true, false], [false, false, false, false])
  }

  /** The number of positions at which two visibility vectors differ:
    how many of the setAxisVisible calls that turn one into the other
    change an axis. */
  function Changed(from: seq<bool>, to: seq<bool>): (n: nat)
    requires |from| == |to|
    ensures n <= |from|
    ensures n == 0 <==> from == to
  {
    if |from| == 0 then 0
    else
      assert from == [from[0]] + from[1..] && to == [to[0]] + to[1..];
      (if from[0] != to[0] then 1 else 0) + Changed(from[1..], to[1..])
  }

  /** Turning a new plot's default axes (YLeft and XBottom) into exactly
    one visible axis changes three axes for XTop or YRight, one for
    XBottom or YLeft. */
  lemma ChangedDefaults(host: nat, e: int)
    requires Axis.IsValid(e)
    ensures Changed(NewPlotState(Some(host)).axisVisible, seq(4, a => a == e)) ==
      (if e == Axis.XTop || e == Axis.YRight then 3 else 1)
  {
    var d := NewPlotState(Some(host)).axisVisible;
    var v := seq(4, a => a == e);
    assert Changed(d[3..], v[3..]) == if e == Axis.XTop then 1 else 0 by {
      assert d[3..][1..] == [] && v[3..][1..] == [];
    }
    assert Changed(d[2..], v[2..]) == Changed(d[3..], v[3..]) + (if e == Axis.XBottom then 0 else 1) by {
      assert d[2..][1..] == d[3..] && v[2..][1..] == v[3..];
    }
    assert Changed(d[1..], v[1..]) == Changed(d[2..], v[2..]) + (if e == Axis.YRight then 1 else 0) by {
      assert d[1..][1..] == d[2..] && v[1..][1..] == v[2..];
    }
    assert Changed(d, v) == Changed(d[1..], v[1..]) + (if e == Axis.YLeft then 0 else 1);
  }

  /** QList::indexOf: the first position of x, or -1. */
  function IndexOf(s: seq<nat>, x: nat): (r: int)
    ensures -1 <= r < |s|
    ensures r == -1 <==> x !in s
    ensures r >= 0 ==> s[r] == x && x !in s[..r]
  {
    if |s| == 0 then -1
    else if s[0] == x then 0
    else
      var k := IndexOf(s[1..], x);
      assert s[1..][..if k < 0 then 0 else k] == s[1..1 + if k < 0 then 0 else k];
      if k < 0 then -1 else k + 1
  }

  /** QList::removeOne: drops the first occurrence of x. */
  function RemoveOne(s: seq<nat>, x: nat): (r: seq<nat>)
    ensures x !in s ==> r == s
    ensures x in s ==> |r| == |s| - 1
    ensures forall y :: y != x ==> (y in r <==> y in s)
  {
    var i := IndexOf(s, x);
    if i < 0 then s
    else
      assert forall y :: y in s ==> y in s[..i] || y == s[i] || y in s[i + 1..] by {
        assert s == s[..i] + [s[i]] + s[i + 1..];
      }
      s[..i] + s[i + 1..]
  }

  /** std::reverse. */
  function Reverse(s: seq<nat>): (r: seq<nat>)
    ensures |r| == |s|
    ensures forall i :: 0 <= i < |s| ==> r[i] == s[|s| - 1 - i]
  {
    if |s| == 0 then [] else Reverse(s[1..]) + [s[0]]
  }

  class QwtPlotTree {
    var plots: seq<PlotState>
    /** Each plot's child plots in Qt's child order (findChildren with
      FindDirectChildrenOnly). */
    var children: seq<seq<nat>>
    /** updateLayout() requests and replots made. */
    var layoutCount: nat
    var replotCount: nat

    ghost predicate Valid()
      reads this
    {
      |children| == |plots| &&
      forall p :: 0 <= p < |plots| ==>
        |plots[p].axisVisible| == 4 && |plots[p].shareConn| == 4 &&
        (plots[p].parent.Some? ==> plots[p].parent.value < |plots|) &&
        (plots[p].isParasite ==> plots[p].parent.Some?) &&
        (forall c :: c in children[p] ==> c < |plots|)
    }

    predicate IsPlot(p: nat)
      reads this
    {
      p < |plots|
    }

    constructor()
      ensures Valid() && plots == [] && children == []
      ensures layoutCount == 0 && replotCount == 0
    {
      plots, children := [], [];
      layoutCount, replotCount := 0, 0;
    }

    /** new QwtPlot(parent): a fresh plot, appended to its parent's children. */
    method NewPlot(parent: Option<nat>) returns (id: nat)
      requires Valid()
      requires parent.Some? ==> IsPlot(parent.value)
      modifies this
      ensures Valid()
      ensures id == old(|plots|) && plots == old(plots) + [NewPlotState(parent)]
      ensures parent.Some? ==> children == old(children)[parent.value := old(children[parent.value]) + [id]] + [[]]
      ensures parent.None? ==> children == old(children) + [[]]
      ensures layoutCount == old(layoutCount) && replotCount == old(replotCount)
    {
      id := |plots|;
      plots := plots + [NewPlotState(parent)];
      if parent.Some? {
        children := children[parent.value := children[parent.value] + [id]];
      }
      children := children + [[]];
    }

    /** createParasitePlot: refused (None) on a parasite. Otherwise a new
      child plot, marked parasite, on which exactly the requested axis is
      visible, or the default axes for an invalid position. */
    method CreateParasitePlot(host: nat, enableAxis: int) returns (r: Option<nat>)
      requires Valid() && IsPlot(host)
      modifies this
      ensures Valid()
      ensures old(plots[host].isParasite) ==> r.None? && plots == old(plots) && children == old(children) && layoutCount == old(layoutCount)
      ensures replotCount == old(replotCount)
      ensures !old(plots[host].isParasite) ==>
        r.Some? && r.value == old(|plots|) && |plots| == old(|plots|) + 1 &&
        plots[..old(|plots|)] == old(plots) &&
        HostPlot(r.value) == Some(host) && IsParasitePlot(r.value) &&
        children == old(children)[host := old(children[host]) + [r.value]] + [[]] &&
        layoutCount == old(layoutCount) + 2 +
          (if enableAxis == Axis.XTop || enableAxis == Axis.YRight then 3
           else if Axis.IsValid(enableAxis) then 1 else 0) &&
        (Axis.IsValid(enableAxis) ==> forall a :: 0 <= a < 4 ==> (plots[r.value].axisVisible[a] <==> a == enableAxis)) &&
        (!Axis.IsValid(enableAxis) ==> plots[r.value].axisVisible == NewPlotState(Some(host)).axisVisible)
    {
      if plots[host].isParasite {
        return None;
      }
      var id := NewPlot(Some(host));
      // initParasiteAxes installs a QwtParasitePlotLayout: setPlotLayout
      // requests a layout of the new plot.
      layoutCount := layoutCount + 1;
      if Axis.IsValid(enableAxis) {
        // The four enableAxis calls: each one that changes an axis'
        // visibility requests a layout (setAxisVisible).
        var vis := seq(4, a => a == enableAxis);
        ChangedDefaults(host, enableAxis);
        layoutCount := layoutCount + Changed(plots[id].axisVisible, vis);
        plots := plots[id := plots[id].(axisVisible := vis)];
      }
      AddParasitePlot(host, Some(id));
      r := Some(id);
    }

    /** addParasitePlot: moves the plot under the host when it has another
      parent (appending it to the host's children) and marks it parasite. */
    method AddParasitePlot(host: nat, parasite: Option<nat>)
      requires Valid() && IsPlot(host)
      requires parasite.Some? ==> IsPlot(parasite.value) && parasite.value != host
      modifies this
      ensures Valid()
      ensures parasite.None? ==> plots == old(plots) && children == old(children) && layoutCount == old(layoutCount)
      ensures parasite.Some? ==>
        var p := parasite.value;
        |plots| == old(|plots|) &&
        plots[p] == old(plots[p]).(parent := Some(host), isParasite := true) &&
        (forall q :: 0 <= q < |plots| && q != p ==> plots[q] == old(plots[q])) &&
        (old(plots[p].parent) == Some(host) ==> children == old(children)) &&
        (old(plots[p].parent) != Some(host) ==>
           |children| == old(|children|) &&
           children[host] == old(children[host]) + [p] &&
           (old(plots[p].parent).Some? ==>
              children[old(plots[p].parent).value] == RemoveOne(old(children[plots[p].parent.value]), p)) &&
           (forall q :: 0 <= q < |children| && q != host && Some(q) != old(plots[p].parent) ==>
              children[q] == old(children[q]))) &&
        layoutCount == old(layoutCount) + 1
      ensures replotCount == old(replotCount)
    {
      if parasite.None? {
        return;
      }
      var p := parasite.value;
      if plots[p].parent != Some(host) {
        if plots[p].parent.Some? {
          var oldParent := plots[p].parent.value;
          children := children[oldParent := RemoveOne(children[oldParent], p)];
        }
        children := children[host := children[host] + [p]];
      }
      plots := plots[p := plots[p].(parent := Some(host), isParasite := true)];
      layoutCount := layoutCount + 1;
    }

    /** removeParasitePlot: clears the parasite mark only. The plot stays a
      child of the host, so the host's parasitePlots() still lists it. */
    method RemoveParasitePlot(parasite: Option<nat>)
      requires Valid()
      requires parasite.Some? ==> IsPlot(parasite.value)
      modifies this
      ensures Valid()
      ensures children == old(children) && |plots| == old(|plots|)
      ensures parasite.Some? ==>
        !IsParasitePlot(parasite.value) && HostPlot(parasite.value).None? &&
        plots == old(plots)[parasite.value := old(plots[parasite.value]).(isParasite := false)] &&
        layoutCount == old(layoutCount) + 1
      ensures parasite.None? ==> plots == old(plots) && layoutCount == old(layoutCount)
    {
      if parasite.None? {
        return;
      }
      var p := parasite.value;
      plots := plots[p := plots[p].(isParasite := false)];
      layoutCount := layoutCount + 1;
    }

    predicate IsParasitePlot(p: nat)
      requires IsPlot(p)
      reads this
    {
      plots[p].isParasite
    }

    /** isHostPlot: exactly the plots not marked parasite. */
    predicate IsHostPlot(p: nat)
      requires IsPlot(p)
      reads this
    {
      !plots[p].isParasite
    }

    /** hostPlot: the parent of a parasite, None for any other plot. */
    function HostPlot(p: nat): (r: Option<nat>)
      requires Valid() && IsPlot(p)
      reads this
      ensures r.Some? <==> IsParasitePlot(p)
      ensures r.Some? ==> IsPlot(r.value) && Some(r.value) == plots[p].parent
    {
      if plots[p].isParasite then plots[p].parent else None
    }

    /** parasitePlots: the host's child plots in order. */
    function ParasitePlots(h: nat): (r: seq<nat>)
      requires Valid() && IsPlot(h)
      reads this
      ensures forall c :: c in r ==> IsPlot(c)
    {
      children[h]
    }

    /** plotList: the host (the plot itself when it has no host) followed by
      its parasites, reversed when descending. */
    function PlotList(p: nat, descending: bool): (r: seq<nat>)
      requires Valid() && IsPlot(p)
      reads this
      ensures var host := if HostPlot(p).Some? then HostPlot(p).value else p;
        var asc := [host] + ParasitePlots(host);
        |r| == |asc| &&
        (!descending ==> r == asc) &&
        (descending ==> forall i :: 0 <= i < |r| ==> r[i] == asc[|asc| - 1 - i])
    {
      var host := if HostPlot(p).Some? then HostPlot(p).value else p;
      var asc := [host] + children[host];
      if descending then Reverse(asc) else asc
    }

    /** parasitePlotAt: None out of range. */
    function ParasitePlotAt(h: nat, index: int): (r: Option<nat>)
      requires Valid() && IsPlot(h)
      reads this
      ensures r.Some? <==> 0 <= index < |ParasitePlots(h)|
      ensures r.Some? ==> r.value == ParasitePlots(h)[index]
    {
      if 0 <= index < |children[h]| then Some(children[h][index]) else None
    }

    /** parasitePlotIndex: the first position in the host's parasite list,
      -1 for a plot that is not in it. */
    function ParasitePlotIndex(h: nat, parasite: nat): (r: int)
      requires Valid() && IsPlot(h)
      reads this
      ensures r == -1 <==> parasite !in ParasitePlots(h)
      ensures r >= 0 ==> ParasitePlotAt(h, r) == Some(parasite)
    {
      IndexOf(children[h], parasite)
    }

    /** isTopParasitePlot: a parasite that is its host's last parasite. */
    predicate IsTopParasitePlot(p: nat)
      requires Valid() && IsPlot(p)
      reads this
    {
      plots[p].isParasite &&
      HostPlot(p).Some? &&
      |children[HostPlot(p).value]| > 0 &&
      children[HostPlot(p).value][|children[HostPlot(p).value]| - 1] == p
    }

    /** setParasiteShareAxis: ignored for an invalid axis or a plot without
      host; otherwise the old connection is dropped and a new one made
      when sharing is asked and the host has that axis widget. */
    method SetParasiteShareAxis(p: nat, axisId: int, isShare: bool, hostHasWidget: bool)
      requires Valid() && IsPlot(p)
      modifies this
      ensures Valid() && |plots| == old(|plots|)
      ensures !Axis.IsValid(axisId) || old(HostPlot(p)).None? ==> plots == old(plots)
      ensures Axis.IsValid(axisId) && old(HostPlot(p)).Some? ==>
        plots == old(plots)[p := old(plots[p]).(shareConn := old(plots[p].shareConn)[axisId := isShare && hostHasWidget])] &&
        (IsParasiteShareAxis(p, axisId) <==> isShare && hostHasWidget)
      ensures children == old(children) && layoutCount == old(layoutCount)
    {
      if axisId < 0 || axisId >= Axis.AxisPositions {
        return;
      }
      if !plots[p].isParasite {
        return;
      }
      var conn := plots[p].shareConn[axisId := isShare && hostHasWidget];
      plots := plots[p := plots[p].(shareConn := conn)];
    }

    /** isParasiteShareAxis: false for an invalid axis. */
    predicate IsParasiteShareAxis(p: nat, axisId: int)
      requires Valid() && IsPlot(p)
      reads this
    {
      Axis.IsValid(axisId) && plots[p].shareConn[axisId]
    }

    method SetAutoReplot(p: nat, tf: bool)
      requires Valid() && IsPlot(p)
      modifies this
      ensures Valid()
      ensures plots == old(plots)[p := old(plots[p]).(autoReplot := tf)]
      ensures children == old(children) && replotCount == old(replotCount)
    {
      plots := plots[p := plots[p].(autoReplot := tf)];
    }

    /** replot: autoReplot is parked, switched off while the axes are
      updated and the canvas repainted, and restored, so it ends as it
      started. */
    method Replot(p: nat)
      requires Valid() && IsPlot(p)
      modifies this
      ensures Valid() && |plots| == old(|plots|)
      ensures plots[p].autoReplot == old(plots[p].autoReplot)
      ensures plots == old(plots)[p := old(plots[p]).(autoReplotTemp := old(plots[p].autoReplot))]
      ensures children == old(children) && replotCount == old(replotCount) + 1
    {
      // saveAutoReplotState
      plots := plots[p := plots[p].(autoReplotTemp := plots[p].autoReplot)];
      SetAutoReplot(p, false);
      replotCount := replotCount + 1;
      // restoreAutoReplotState
      plots := plots[p := plots[p].(autoReplot := plots[p].autoReplotTemp)];
    }
  }

  /** The top parasite is the last plot of plotList and the first of the
    descending plotList. */
  lemma {:induction false} TopParasiteIsOutermost(t: QwtPlotTree, p: nat)
    requires t.Valid() && t.IsPlot(p) && t.IsTopParasitePlot(p)
    ensures var l := t.PlotList(p, false); l[|l| - 1] == p
    ensures t.PlotList(p, true)[0] == p
  {
    var h := t.HostPlot(p).value;
    var asc := [h] + t.children[h];
    assert asc[|asc| - 1] == t.children[h][|t.children[h]| - 1];
  }

  /** The host is the first plot of plotList, and a parasite of a host
    gets the same list as its host. */
  lemma {:induction false} PlotListStartsWithHost(t: QwtPlotTree, p: nat)
    requires t.Valid() && t.IsPlot(p)
    ensures t.PlotList(p, false)[0] == (if t.IsParasitePlot(p) then t.HostPlot(p).value else p)
    ensures t.IsParasitePlot(p) && t.IsHostPlot(t.HostPlot(p).value) ==>
      t.PlotList(p, false) == t.PlotList(t.HostPlot(p).value, false)
  {
  }

  // ---------------------------------------------------------------------
  // updateAxisEdgeMargin

  /** QRectF::adjust as updateAxisEdgeMargin's shrinkRect uses it: the
    rectangle loses delta across the axis, on the side facing the canvas. */
  function ShrinkRect(r: RectF, delta: int, axisId: int): (s: RectF)
    ensures Axis.IsYAxis(axisId) ==> s.width == r.width - delta as real && s.height == r.height && s.y == r.y
    ensures Axis.IsXAxis(axisId) ==> s.height == r.height - delta as real && s.width == r.width && s.x == r.x
    ensures axisId == Axis.YLeft ==> s.x == r.x
    ensures axisId == Axis.YRight ==> s.Right() == r.Right()
    ensures axisId == Axis.XBottom ==> s.Bottom() == r.Bottom()
    ensures axisId == Axis.XTop ==> s.y == r.y
    ensures !Axis.IsValid(axisId) || delta == 0 ==> s == r
  {
    if delta == 0 then r
    else if axisId == Axis.YLeft then RectF(r.x, r.y, r.width - delta as real, r.height)
    else if axisId == Axis.YRight then RectF(r.x + delta as real, r.y, r.width - delta as real, r.height)
    else if axisId == Axis.XBottom then RectF(r.x, r.y + delta as real, r.width, r.height - delta as real)
    else if axisId == Axis.XTop then RectF(r.x, r.y, r.width, r.height - delta as real)
    else r
  }

  /** A layer's size across the axis: width for a y axis, height otherwise. */
  function LayerSize(r: RectF, axisId: int): real
  {
    if Axis.IsYAxis(axisId) then r.width else r.height
  }

  /** A parasite as updateAxisEdgeMargin sees it: whether it shows the
    axis, whether it uses a QwtParasitePlotLayout, its parasite scale rect
    and its scale widget's current edge margin and margin. */
  datatype ParasiteLayer = ParasiteLayer(plot: nat, axisVisible: bool, hasParasiteLayout: bool,
                                         scaleRect: RectF, edgeMargin: int, margin: int)

  predicate IsLayer(l: ParasiteLayer)
  {
    l.axisVisible && l.hasParasiteLayout
  }

  /** The net sizes of the layers: the host's scale rect less its edge
    margin, then each parasite that shows the axis, less its edge margin
    and margin. */
  function LayerSizes(axisId: int, hostRect: RectF, hostEdgeMargin: int, parasites: seq<ParasiteLayer>): (s: seq<real>)
    ensures |s| >= 1 && s[0] == LayerSize(ShrinkRect(hostRect, hostEdgeMargin, axisId), axisId)
  {
    if |parasites| == 0 then [LayerSize(ShrinkRect(hostRect, hostEdgeMargin, axisId), axisId)]
    else
      var prefix := LayerSizes(axisId, hostRect, hostEdgeMargin, parasites[..|parasites| - 1]);
      var l := parasites[|parasites| - 1];
      if IsLayer(l) then prefix + [LayerSize(ShrinkRect(l.scaleRect, l.edgeMargin + l.margin, axisId), axisId)]
      else prefix
  }

  /** The plots of the layers, host first, in the same order. */
  function LayerPlots(host: nat, parasites: seq<ParasiteLayer>): (s: seq<nat>)
    ensures |s| >= 1 && s[0] == host
  {
    if |parasites| == 0 then [host]
    else
      var prefix := LayerPlots(host, parasites[..|parasites| - 1]);
      var l := parasites[|parasites| - 1];
      if IsLayer(l) then prefix + [l.plot] else prefix
  }

  lemma {:induction false} LayerListsAligned(axisId: int, host: nat, hostRect: RectF, hostEdgeMargin: int, parasites: seq<ParasiteLayer>)
    ensures |LayerSizes(axisId, hostRect, hostEdgeMargin, parasites)| == |LayerPlots(host, parasites)|
    decreases |parasites|
  {
    if |parasites| > 0 {
      LayerListsAligned(axisId, host, hostRect, hostEdgeMargin, parasites[..|parasites| - 1]);
    }
  }

  /** accumulateSize(low, high): the sizes added one by one into an int,
    each addition truncated toward zero as the conversion from double
    does. */
  function Accumulate(sizes: seq<real>, low: int, high: int): int
    requires 0 <= low && high <= |sizes|
    decreases high - low
  {
    if high <= low then 0 else Trunc(Accumulate(sizes, low, high - 1) as real + sizes[high - 1])
  }

  /** The margins set on one layer's scale widget: its edge margin, and
    its margin except for the host. */
  datatype LayerMargins = LayerMargins(plot: nat, edgeMargin: int, margin: Option<int>)

  method AccumulateSize(sizes: seq<real>, low: int, high: int) returns (sum: int)
    requires 0 <= low && high <= |sizes|
    ensures sum == Accumulate(sizes, low, high)
  {
    sum := 0;
    if high <= low {
      return;
    }
    var i := low;
    while i < high
      invariant low <= i <= high
      invariant sum == Accumulate(sizes, low, i)
    {
      sum := Trunc(sum as real + sizes[i]);
      i := i + 1;
    }
  }

  /** updateAxisEdgeMargin: nothing without parasites. Otherwise layer i
    gets as edge margin the sizes of the layers above it, and every layer
    but the host gets as margin the sizes of the layers below it. */
  method UpdateAxisEdgeMargin(axisId: int, host: nat, hostRect: RectF, hostEdgeMargin: int, parasites: seq<ParasiteLayer>)
    returns (r: seq<LayerMargins>)
    ensures |parasites| == 0 ==> r == []
    ensures |parasites| > 0 ==>
      var sizes := LayerSizes(axisId, hostRect, hostEdgeMargin, parasites);
      var owners := LayerPlots(host, parasites);
      |r| == |sizes| == |owners| &&
      forall i :: 0 <= i < |r| ==>
        r[i].plot == owners[i] &&
        r[i].edgeMargin == Accumulate(sizes, i + 1, |sizes|) &&
        r[i].margin == (if i == 0 then None else Some(Accumulate(sizes, 0, i)))
  {
    if |parasites| == 0 {
      return [];
    }
    LayerListsAligned(axisId, host, hostRect, hostEdgeMargin, parasites);
    var sizes := [LayerSize(ShrinkRect(hostRect, hostEdgeMargin, axisId), axisId)];
    var owners := [host];
    var k := 0;
    while k < |parasites|
      invariant 0 <= k <= |parasites|
      invariant sizes == LayerSizes(axisId, hostRect, hostEdgeMargin, parasites[..k])
      invariant owners == LayerPlots(host, parasites[..k])
    {
      var l := parasites[k];
      assert parasites[..k + 1][..k] == parasites[..k];
      if l.axisVisible && l.hasParasiteLayout {
        sizes := sizes + [LayerSize(ShrinkRect(l.scaleRect, l.edgeMargin + l.margin, axisId), axisId)];
        owners := owners + [l.plot];
      }
      k := k + 1;
    }
    assert parasites[..k] == parasites;
    r := [];
    var i := 0;
    while i < |sizes|
      invariant 0 <= i <= |sizes|
      invariant |r| == i
      invariant forall j :: 0 <= j < i ==>
        r[j].plot == owners[j] &&
        r[j].edgeMargin == Accumulate(sizes, j + 1, |sizes|) &&
        r[j].margin == (if j == 0 then None else Some(Accumulate(sizes, 0, j)))
    {
      var margin := AccumulateSize(sizes, 0, i);
      var edgeMargin := AccumulateSize(sizes, i + 1, |sizes|);
      r := r + [LayerMargins(owners[i], edgeMargin, if i != 0 then Some(margin) else None)];
      i := i + 1;
    }
  }

  /** The plain sum of sizes[low..high]. */
  function SumSizes(sizes: seq<real>, low: int, high: int): real
    requires 0 <= low && high <= |sizes|
    decreases high - low
  {
    if high <= low then 0.0 else SumSizes(sizes, low, high - 1) + sizes[high - 1]
  }

  predicate Integral(sizes: seq<real>)
  {
    forall i :: 0 <= i < |sizes| ==> sizes[i] == sizes[i].Floor as real
  }

  /** With whole-pixel sizes the truncation loses nothing. */
  lemma {:induction false} AccumulateExact(sizes: seq<real>, low: int, high: int)
    requires 0 <= low && high <= |sizes| && Integral(sizes)
    ensures Accumulate(sizes, low, high) as real == SumSizes(sizes, low, high)
    decreases high - low
  {
    if high > low {
      AccumulateExact(sizes, low, high - 1);
      var a := Accumulate(sizes, low, high - 1);
      var f := sizes[high - 1].Floor;
      assert a as real + sizes[high - 1] == (a + f) as real;
      TruncOfWhole(a + f);
    }
  }

  lemma {:induction false} TruncOfWhole(n: int)
    ensures Trunc(n as real) == n
  {
    if n < 0 {
      assert -(n as real) == (-n) as real;
    }
  }

  lemma {:induction false} SumSizesSplit(sizes: seq<real>, low: int, mid: int, high: int)
    requires 0 <= low <= mid <= high <= |sizes|
    ensures SumSizes(sizes, low, high) == SumSizes(sizes, low, mid) + SumSizes(sizes, mid, high)
    decreases high - mid
  {
    if high > mid {
      SumSizesSplit(sizes, low, mid, high - 1);
    }
  }

  /** With whole-pixel sizes the layers tile the band exactly: below
    layer i lie margin(i), then layer i itself, then edgeMargin(i), and
    the next layer's margin is this layer's margin plus its size. */
  lemma {:induction false} LayersTile(sizes: seq<real>, i: int)
    requires Integral(sizes) && 0 <= i < |sizes|
    ensures (Accumulate(sizes, 0, i) + Accumulate(sizes, i + 1, |sizes|)) as real + sizes[i] ==
            Accumulate(sizes, 0, |sizes|) as real
    ensures i + 1 < |sizes| ==> Accumulate(sizes, 0, i + 1) as real == Accumulate(sizes, 0, i) as real + sizes[i]
  {
    AccumulateExact(sizes, 0, i);
    AccumulateExact(sizes, i + 1, |sizes|);
    AccumulateExact(sizes, 0, |sizes|);
    AccumulateExact(sizes, 0, i + 1);
    SumSizesSplit(sizes, 0, i, |sizes|);
    SumSizesSplit(sizes, i, i + 1, |sizes|);
    assert SumSizes(sizes, i, i + 1) == sizes[i];
  }

  // ---------------------------------------------------------------------
  // rescaleAxes

  /** A plot item as rescaleAxes sees it: visibility and bounding rect. */
  datatype ItemBox = ItemBox(visible: bool, rect: RectF)

  /** Items rescaleAxes takes into account: visible when asked, with a
    valid, non-empty bounding rect. */
  predicate Usable(it: ItemBox, onlyVisibleItems: bool)
  {
    (!onlyVisibleItems || it.visible) && it.rect.IsValid() && !it.rect.IsEmpty()
  }

  datatype Bounds = Bounds(minX: real, maxX: real, minY: real, maxY: real)

  /** The extremes of the usable items' edges, None when there is none. */
  function DataBounds(items: seq<ItemBox>, onlyVisibleItems: bool): Option<Bounds>
  {
    if |items| == 0 then None
    else
      var b := DataBounds(items[..|items| - 1], onlyVisibleItems);
      var r := items[|items| - 1].rect;
      if !Usable(items[|items| - 1], onlyVisibleItems) then b
      else if b.None? then Some(Bounds(r.x, r.Right(), r.y, r.Bottom()))
      else Some(Bounds(MinR(b.value.minX, r.x), MaxR(b.value.maxX, r.Right()),
                       MinR(b.value.minY, r.y), MaxR(b.value.maxY, r.Bottom())))
  }

  /** DataBounds is None exactly when no item is usable; otherwise every
    usable item's rect lies inside it. */
  lemma {:induction false} DataBoundsCover(items: seq<ItemBox>, onlyVisibleItems: bool)
    ensures DataBounds(items, onlyVisibleItems).None? <==> forall k :: 0 <= k < |items| ==> !Usable(items[k], onlyVisibleItems)
    ensures DataBounds(items, onlyVisibleItems).Some? ==>
      var b := DataBounds(items, onlyVisibleItems).value;
      forall k :: 0 <= k < |items| && Usable(items[k], onlyVisibleItems) ==>
        b.minX <= items[k].rect.x && items[k].rect.Right() <= b.maxX &&
        b.minY <= items[k].rect.y && items[k].rect.Bottom() <= b.maxY
  {
    if |items| > 0 {
      var pre := items[..|items| - 1];
      DataBoundsCover(pre, onlyVisibleItems);
      assert forall k :: 0 <= k < |pre| ==> pre[k] == items[k];
    }
  }

  /** Each bound is an edge of some usable item. */
  lemma {:induction false} DataBoundsAttained(items: seq<ItemBox>, onlyVisibleItems: bool)
    requires DataBounds(items, onlyVisibleItems).Some?
    ensures var b := DataBounds(items, onlyVisibleItems).value;
      (exists k :: 0 <= k < |items| && Usable(items[k], onlyVisibleItems) && items[k].rect.x == b.minX) &&
      (exists k :: 0 <= k < |items| && Usable(items[k], onlyVisibleItems) && items[k].rect.Right() == b.maxX) &&
      (exists k :: 0 <= k < |items| && Usable(items[k], onlyVisibleItems) && items[k].rect.y == b.minY) &&
      (exists k :: 0 <= k < |items| && Usable(items[k], onlyVisibleItems) && items[k].rect.Bottom() == b.maxY)
  {
    var pre := items[..|items| - 1];
    var last := |items| - 1;
    assert forall k :: 0 <= k < |pre| ==> pre[k] == items[k];
    if Usable(items[last], onlyVisibleItems) && DataBounds(pre, onlyVisibleItems).Some? {
      DataBoundsAttained(pre, onlyVisibleItems);
    } else if !Usable(items[last], onlyVisibleItems) {
      DataBoundsAttained(pre, onlyVisibleItems);
    }
  }

  /** The loop of rescaleAxes that gathers the data range. */
  method CollectDataBounds(items: seq<ItemBox>, onlyVisibleItems: bool) returns (b: Option<Bounds>)
    ensures b == DataBounds(items, onlyVisibleItems)
  {
    b := None;
    var i := 0;
    while i < |items|
      invariant 0 <= i <= |items|
      invariant b == DataBounds(items[..i], onlyVisibleItems)
    {
      var r := items[i].rect;
      assert items[..i + 1][..i] == items[..i];
      if (!onlyVisibleItems || items[i].visible) && r.IsValid() && !r.IsEmpty() {
        if b.None? {
          b := Some(Bounds(r.x, r.Right(), r.y, r.Bottom()));
        } else {
          b := Some(Bounds(MinR(b.value.minX, r.x), MaxR(b.value.maxX, r.Right()),
                           MinR(b.value.minY, r.y), MaxR(b.value.maxY, r.Bottom())));
        }
      }
      i := i + 1;
    }
    assert items[..i] == items;
  }

  /** The data range widened on both sides by marginPercent of its span. */
  function Widen(b: Bounds, marginPercent: real): (r: (Interval, Interval))
    ensures r.0.minValue + r.0.maxValue == b.minX + b.maxX
    ensures r.1.minValue + r.1.maxValue == b.minY + b.maxY
    ensures r.0.maxValue - b.maxX == b.minX - r.0.minValue == (b.maxX - b.minX) * marginPercent
    ensures r.1.maxValue - b.maxY == b.minY - r.1.minValue == (b.maxY - b.minY) * marginPercent
    ensures marginPercent >= 0.0 && b.minX <= b.maxX ==> r.0.minValue <= b.minX && b.maxX <= r.0.maxValue
    ensures marginPercent >= 0.0 && b.minY <= b.maxY ==> r.1.minValue <= b.minY && b.maxY <= r.1.maxValue
  {
    var xm := (b.maxX - b.minX) * marginPercent;
    var ym := (b.maxY - b.minY) * marginPercent;
    (Interval(b.minX - xm, b.maxX + xm), Interval(b.minY - ym, b.maxY + ym))
  }

  /** The two ranges rescaleAxes passes to setAxisScale, each widened by
    marginPercent of its span on both sides; None when nothing is set. */
  function RescaleRangesAsWritten(b: Option<Bounds>, marginPercent: real): (r: Option<(Interval, Interval)>)
    ensures r.None? <==> b.None? || marginPercent > 1.0
  {
    if b.None? || marginPercent > 1.0 then None
    else Some(Widen(b.value, marginPercent))
  }

  /** A margin above 100% still fits the axes to the data, with no margin. */
  function RescaleRanges(b: Option<Bounds>, marginPercent: real): (r: Option<(Interval, Interval)>)
    ensures r.None? <==> b.None?
    ensures marginPercent <= 1.0 ==> r == RescaleRangesAsWritten(b, marginPercent)
  {
    if b.None? then None
    else Some(Widen(b.value, if marginPercent > 1.0 then 0.0 else marginPercent))
  }

  /** The ranges keep the data's midpoints, widen each side by the same
    margin, and hold every usable item when the margin is not negative. */
  lemma {:induction false} RescaleRangesFitData(items: seq<ItemBox>, onlyVisibleItems: bool, marginPercent: real)
    requires DataBounds(items, onlyVisibleItems).Some? && marginPercent >= 0.0
    ensures var b := DataBounds(items, onlyVisibleItems).value;
      var r := RescaleRanges(Some(b), marginPercent).value;
      r.0.minValue + r.0.maxValue == b.minX + b.maxX &&
      r.1.minValue + r.1.maxValue == b.minY + b.maxY &&
      (forall k :: 0 <= k < |items| && Usable(items[k], onlyVisibleItems) ==>
        r.0.minValue <= items[k].rect.x && items[k].rect.Right() <= r.0.maxValue &&
        r.1.minValue <= items[k].rect.y && items[k].rect.Bottom() <= r.1.maxValue)
  {
    DataBoundsCover(items, onlyVisibleItems);
    DataBoundsAttained(items, onlyVisibleItems);
    var b := DataBounds(items, onlyVisibleItems).value;
    var k :| 0 <= k < |items| && Usable(items[k], onlyVisibleItems) && items[k].rect.x == b.minX;
    assert b.minX <= b.maxX;
    var j :| 0 <= j < |items| && Usable(items[j], onlyVisibleItems) && items[j].rect.y == b.minY;
    assert b.minY <= b.maxY;
  }

  /** As written, a margin of 500% (meant as 5%) leaves the axes alone even
    though there is data to fit. */
  lemma {:induction false} LargeMarginIgnored()
    ensures var b := Some(Bounds(0.0, 10.0, 0.0, 4.0));
      RescaleRangesAsWritten(b, 5.0).None? &&
      RescaleRanges(b, 5.0) == Some((Interval(0.0, 10.0), Interval(0.0, 4.0)))
  {
  }
}
