/** QwtFigure: a frame whose QwtFigureLayout holds the plots ("axes") and
    other widgets, plus the current-axes bookkeeping. Re-parenting, painting,
    sizes in inches and saving are not modelled; the axesRemoved and
    figureCleared signals and the deleteLater calls are appended to logs. */
module Figure {
  import opened Types
  import Algorithm
  import opened FigureLayout

  datatype FigureEvent = AxesRemoved(plot: Widget) | FigureCleared

  /** The plots among the items' widgets, in layout order (qobject_cast to
      QwtPlot succeeding is Widget.isPlot). */
  function PlotsIn(items: seq<LayoutItem>): (ps: seq<Widget>)
    ensures |ps| <= |items|
    ensures forall w :: w in ps <==> w.isPlot && Some(w) in Widgets(items)
  {
    if |items| == 0 then []
    else
      assert Widgets(items) == [items[0].item.widget] + Widgets(items[1..]);
      var rest := PlotsIn(items[1..]);
      match items[0].item.widget
      case Some(w) => if w.isPlot then [w] + rest else rest
      case None => rest
  }

  /** Collecting plots distributes over concatenation of item lists. */
  lemma {:induction false} PlotsInAppend(a: seq<LayoutItem>, b: seq<LayoutItem>)
    ensures PlotsIn(a + b) == PlotsIn(a) + PlotsIn(b)
  {
    if |a| == 0 {
      assert a + b == b;
    } else {
      assert (a + b)[1..] == a[1..] + b;
      PlotsInAppend(a[1..], b);
    }
  }

  /** The plot an item contributes: itself when its widget is a plot. */
  lemma PlotsInOne(it: LayoutItem)
    ensures PlotsIn([it]) == (if it.item.widget.Some? && it.item.widget.value.isPlot then [it.item.widget.value] else [])
  {
    assert [it][1..] == [];
  }

  /** The last plot of the items, or dflt when there is none. */
  function LastPlotOr(items: seq<LayoutItem>, dflt: Option<Widget>): Option<Widget> {
    var ps := PlotsIn(items);
    if |ps| == 0 then dflt else Some(ps[|ps| - 1])
  }

  /** The items clear() leaves behind: those at odd positions. */
  function OddPositions<T>(s: seq<T>): (r: seq<T>)
    ensures 2 * |r| <= |s| <= 2 * |r| + 1
    ensures forall j :: 0 <= j < |r| ==> r[j] == s[2 * j + 1]
  {
    if |s| < 2 then [] else [s[1]] + OddPositions(s[2..])
  }

  /** The items at even positions 0, 2, 4, ...: the ones clear() as written
      removes. */
  function EvenPositions<T>(s: seq<T>): (r: seq<T>)
    ensures 2 * |r| - 1 <= |s| <= 2 * |r|
    ensures forall j :: 0 <= j < |r| ==> r[j] == s[2 * j]
  {
    if |s| == 0 then [] else if |s| == 1 then [s[0]] else [s[0]] + EvenPositions(s[2..])
  }

  /** The widgets the items hold, in order, skipping the items without one:
      the widgets a removal loop hands to deleteLater. */
  function ItemWidgets(items: seq<LayoutItem>): (ws: seq<Widget>)
    ensures |ws| <= |items|
    ensures forall w :: w in ws <==> Some(w) in Widgets(items)
  {
    if |items| == 0 then []
    else
      assert Widgets(items) == [items[0].item.widget] + Widgets(items[1..]);
      (if items[0].item.widget.Some? then [items[0].item.widget.value] else []) + ItemWidgets(items[1..])
  }

  /** Collecting widgets distributes over concatenation of item lists. */
  lemma {:induction false} ItemWidgetsAppend(a: seq<LayoutItem>, b: seq<LayoutItem>)
    ensures ItemWidgets(a + b) == ItemWidgets(a) + ItemWidgets(b)
  {
    if |a| == 0 {
      assert a + b == b;
    } else {
      assert (a + b)[1..] == a[1..] + b;
      ItemWidgetsAppend(a[1..], b);
    }
  }

  class QwtFigure {
    const lay: QwtFigureLayout
    var currentAxes: Option<Widget>
    var events: seq<FigureEvent>
    /** Widgets passed to deleteLater, in order. */
    var deleted: seq<Widget>

    /** A figure owning a fresh empty QwtFigureLayout and no current axes. */
    constructor()
      ensures fresh(lay) && lay.items == [] && lay.nextItemId == 0
      ensures currentAxes == None && events == [] && deleted == []
    {
      lay := new QwtFigureLayout();
      currentAxes := None;
      events := [];
      deleted := [];
    }

    /** QwtFigure::addAxes(plot, rect): the layout appends the plot (a null
      plot appends nothing) and the plot becomes the current axes, even when
      it is null. */
    method AddAxes(plot: Option<Widget>, rect: RectF)
      requires plot.Some? ==> plot.value.isPlot
      modifies this, lay
      ensures currentAxes == plot
      ensures plot.None? ==> lay.items == old(lay.items)
      ensures plot.Some? ==>
        lay.items == old(lay.items) + [LayoutItem(ItemRef(old(lay.nextItemId), plot), rect)]
      ensures events == old(events) && deleted == old(deleted)
    {
      lay.AddAxes(plot, rect);
      currentAxes := plot;
    }

    /** The addAxes(plot, left, top, width, height) overload. */
    method AddAxesAt(plot: Option<Widget>, l: real, t: real, w: real, h: real)
      requires plot.Some? ==> plot.value.isPlot
      modifies this, lay
      ensures currentAxes == plot
      ensures plot.None? ==> lay.items == old(lay.items)
      ensures plot.Some? ==>
        lay.items == old(lay.items) + [LayoutItem(ItemRef(old(lay.nextItemId), plot), RectF(l, t, w, h))]
      ensures events == old(events) && deleted == old(deleted)
    {
      lay.AddAxesAt(plot, l, t, w, h);
      currentAxes := plot;
    }

    /** The grid addAxes overload: the plot becomes current even when the
      layout rejected the grid parameters. */
    method AddAxesGrid(plot: Option<Widget>, rowCnt: int, colCnt: int, row: int, col: int,
                       rowSpan: int, colSpan: int, wspace: real, hspace: real)
      requires plot.Some? ==> plot.value.isPlot
      modifies this, lay
      ensures currentAxes == plot
      ensures plot.None? || !GridParamsValid(rowCnt, colCnt, row, col, rowSpan, colSpan) ==>
        lay.items == old(lay.items)
      ensures plot.Some? && GridParamsValid(rowCnt, colCnt, row, col, rowSpan, colSpan) ==>
        lay.items == old(lay.items) + [LayoutItem(ItemRef(old(lay.nextItemId), plot),
                                                  CalcGridRect(rowCnt, colCnt, row, col, rowSpan, colSpan, wspace, hspace))]
      ensures events == old(events) && deleted == old(deleted)
    {
      lay.AddAxesGrid(plot, rowCnt, colCnt, row, col, rowSpan, colSpan, wspace, hspace);
      currentAxes := plot;
    }

    /** QwtFigure::allAxes: the plots of the layout, in layout order. */
    method AllAxes() returns (plots: seq<Widget>)
      ensures plots == PlotsIn(lay.items)
    {
      plots := [];
      for i := 0 to |lay.items|
        invariant plots == PlotsIn(lay.items[..i])
      {
        var item := lay.items[i];
        PlotsInAppend(lay.items[..i], [item]);
        PlotsInOne(item);
        assert lay.items[..i + 1] == lay.items[..i] + [item];
        if item.item.widget.Some? && item.item.widget.value.isPlot {
          plots := plots + [item.item.widget.value];
        }
      }
      assert lay.items[..|lay.items|] == lay.items;
    }

    /** QwtFigure::hasAxes(): some layout item holds a plot. */
    method HasAnyAxes() returns (r: bool)
      ensures r <==> exists k :: 0 <= k < |lay.items| && lay.items[k].item.widget.Some? && lay.items[k].item.widget.value.isPlot
    {
      for i := 0 to |lay.items|
        invariant forall k :: 0 <= k < i ==> !(lay.items[k].item.widget.Some? && lay.items[k].item.widget.value.isPlot)
      {
        var w := lay.items[i].item.widget;
        if w.Some? && w.value.isPlot {
          return true;
        }
      }
      return false;
    }

    /** QwtFigure::hasAxes(plot): some layout item holds exactly that plot;
      never for a null plot. */
    method HasAxes(plot: Option<Widget>) returns (r: bool)
      requires plot.Some? ==> plot.value.isPlot
      ensures r <==> plot.Some? && plot in Widgets(lay.items)
    {
      for i := 0 to |lay.items|
        invariant forall k :: 0 <= k < i ==> !(lay.items[k].item.widget.Some? && lay.items[k].item.widget == plot)
      {
        var ax := lay.items[i].item.widget;
        if ax.Some? && ax.value.isPlot && ax == plot {
          return true;
        }
      }
      return false;
    }

    /** QwtFigure::takeAxes: a null plot gives false. Otherwise the first item
      holding the plot is removed, and the result says whether one was. When
      the plot was the current axes, the current axes become the last plot
      left in the layout, or stay the taken plot when none is left. */
    method TakeAxes(plot: Option<Widget>) returns (isRemove: bool)
      requires plot.Some? ==> plot.value.isPlot
      modifies this, lay
      ensures isRemove <==> plot.Some? && plot in Widgets(old(lay.items))
      ensures isRemove ==>
        var k := Algorithm.Find(Widgets(old(lay.items)), plot);
        lay.items == old(lay.items[..k] + lay.items[k + 1..])
      ensures !isRemove ==> lay.items == old(lay.items)
      ensures currentAxes ==
        (if plot.Some? && plot == old(currentAxes) then LastPlotOr(lay.items, old(currentAxes)) else old(currentAxes))
      ensures events == old(events) + (if isRemove then [AxesRemoved(plot.value)] else [])
      ensures deleted == old(deleted)
      ensures lay.left == old(lay.left) && lay.right == old(lay.right) && lay.top == old(lay.top) && lay.bottom == old(lay.bottom)
      ensures lay.nextItemId == old(lay.nextItemId)
    {
      if plot.None? {
        return false;
      }
      isRemove := false;
      var removingCurrent := plot == currentAxes;
      var i := IndexOfWidget(lay.items, plot);
      if i < |lay.items| {
        var taken := lay.TakeAt(i);
        isRemove := true;
      }
      if removingCurrent {
        currentAxes := LastPlot(lay.items, currentAxes);
      }
      if isRemove {
        events := events + [AxesRemoved(plot.value)];
      }
    }

    /** QwtFigure::removeAxes: takeAxes, then deleteLater on the plot only when
      it was taken. */
    method RemoveAxes(plot: Option<Widget>)
      requires plot.Some? ==> plot.value.isPlot
      modifies this, lay
      ensures plot.Some? && plot in Widgets(old(lay.items)) ==> deleted == old(deleted) + [plot.value]
      ensures !(plot.Some? && plot in Widgets(old(lay.items))) ==> deleted == old(deleted) && lay.items == old(lay.items)
    {
      var taken := TakeAxes(plot);
      if taken {
        deleted := deleted + [plot.value];
      }
    }

    /** QwtFigure::clear as written: the loop index advances after every
      removal, so the item that slides into the freed slot is skipped. Only the
      items at even positions are removed (and their widgets deleted); the
      ones at odd positions stay. The current axes become null, and
      figureCleared fires when at least one item was removed. */
    method ClearAsWritten()
      modifies this, lay
      ensures lay.items == OddPositions(old(lay.items))
      ensures currentAxes == None
      ensures events == old(events) + (if |old(lay.items)| > 0 then [FigureCleared] else [])
      ensures deleted == old(deleted) + ItemWidgets(EvenPositions(old(lay.items)))
    {
      ghost var s := lay.items;
      ghost var removed: seq<LayoutItem> := [];
      var cnt := 0;
      var i := 0;
      while i < |lay.items|
        invariant ClearInv(s, lay.items, i)
        invariant cnt == i
        invariant events == old(events)
        invariant |removed| == i && forall j :: 0 <= j < i ==> removed[j] == s[2 * j]
        invariant deleted == old(deleted) + ItemWidgets(removed)
      {
        ClearStep(s, lay.items, i);
        EvenStep(s, lay.items, removed, i);
        ItemWidgetsAppend(removed, [lay.items[i]]);
        removed := removed + [lay.items[i]];
        DeleteItemAt(i);
        cnt := cnt + 1;
        i := i + 1;
      }
      OddPositionsUnique(s, lay.items);
      EvenPositionsUnique(s, removed);
      currentAxes := None;
      if cnt > 0 {
        events := events + [FigureCleared];
      }
    }

    /** One removal of clear()'s loop: the widget of item i, if any, is
      deleted and the item leaves the layout. */
    method DeleteItemAt(i: nat)
      requires i < |lay.items|
      modifies this`deleted, lay
      ensures lay.items == old(lay.items[..i] + lay.items[i + 1..])
      ensures deleted == old(deleted) + ItemWidgets([old(lay.items[i])])
    {
      var item := lay.items[i];
      if item.item.widget.Some? {
        deleted := deleted + [item.item.widget.value];
      }
      var taken := lay.TakeAt(i);
    }

    /** clear() as documented: every item leaves the layout. */
    method Clear()
      modifies this, lay
      ensures lay.items == []
      ensures currentAxes == None
      ensures events == old(events) + (if |old(lay.items)| > 0 then [FigureCleared] else [])
      ensures deleted == old(deleted) + ItemWidgets(old(lay.items))
    {
      var cnt := 0;
      while |lay.items| > 0
        invariant cnt + |lay.items| == |old(lay.items)|
        invariant lay.items == old(lay.items)[cnt..]
        invariant deleted == old(deleted) + ItemWidgets(old(lay.items)[..cnt])
        invariant events == old(events)
        decreases |lay.items|
      {
        var item := lay.items[0];
        ItemWidgetsAppend(old(lay.items)[..cnt], [item]);
        assert old(lay.items)[..cnt + 1] == old(lay.items)[..cnt] + [item];
        if item.item.widget.Some? {
          deleted := deleted + [item.item.widget.value];
        }
        var taken := lay.TakeAt(0);
        cnt := cnt + 1;
      }
      assert old(lay.items)[..cnt] == old(lay.items);
      currentAxes := None;
      if cnt > 0 {
        events := events + [FigureCleared];
      }
    }

    /** QwtFigure::setCurrentAxes: only a non-null plot that the layout holds
      becomes the current axes. */
    method SetCurrentAxes(plot: Option<Widget>)
      requires plot.Some? ==> plot.value.isPlot
      modifies this
      ensures plot.Some? && plot in Widgets(lay.items) ==> currentAxes == plot
      ensures !(plot.Some? && plot in Widgets(lay.items)) ==> currentAxes == old(currentAxes)
      ensures events == old(events) && deleted == old(deleted)
    {
      var has := HasAxes(plot);
      if plot.Some? && has {
        currentAxes := plot;
      }
    }
  }

  /** The loop of takeAxes that looks for the plot: the first position whose
    item holds w, or |items| when there is none. */
  method IndexOfWidget(items: seq<LayoutItem>, w: Option<Widget>) returns (i: nat)
    ensures i == Algorithm.Find(Widgets(items), w)
  {
    i := 0;
    while i < |items| && items[i].item.widget != w
      invariant 0 <= i <= |items|
      invariant forall k :: 0 <= k < i ==> items[k].item.widget != w
    {
      i := i + 1;
    }
    if i == |items| {
      assert w !in Widgets(items);
    }
  }

  /** The loop of takeAxes that re-selects the current axes: each plot met
    overwrites the result, so the last plot wins; with no plot the result
    stays dflt. */
  method LastPlot(items: seq<LayoutItem>, dflt: Option<Widget>) returns (c: Option<Widget>)
    ensures c == LastPlotOr(items, dflt)
  {
    c := dflt;
    for j := 0 to |items|
      invariant c == LastPlotOr(items[..j], dflt)
    {
      var item := items[j];
      PlotsInAppend(items[..j], [item]);
      PlotsInOne(item);
      assert items[..j + 1] == items[..j] + [item];
      if item.item.widget.Some? && item.item.widget.value.isPlot {
        c := item.item.widget;
      }
    }
    assert items[..|items|] == items;
  }

  /** The state of clear()'s loop after i removals: the first i items are the
    odd positions already passed, the rest is the untouched tail of s. */
  ghost predicate ClearInv<T>(s: seq<T>, items: seq<T>, i: nat) {
    i <= |s| && |items| == |s| - i && 2 * i <= |s| + 1 &&
    (forall j :: 0 <= j < i && j < |items| ==> items[j] == s[2 * j + 1]) &&
    (forall j :: i <= j < |items| ==> items[j] == s[j + i])
  }

  /** One pass of clear()'s loop: removing position i and advancing keeps the
    loop state. */
  lemma ClearStep<T>(s: seq<T>, items: seq<T>, i: nat)
    requires ClearInv(s, items, i) && i < |items|
    ensures ClearInv(s, items[..i] + items[i + 1..], i + 1)
  {
    var t := items[..i] + items[i + 1..];
    forall j | i + 1 <= j < |t|
      ensures t[j] == s[j + i + 1]
    {
      assert t[j] == items[j + 1];
    }
    forall j | 0 <= j < i + 1 && j < |t|
      ensures t[j] == s[2 * j + 1]
    {
      if j < i {
        assert t[j] == items[j];
      } else {
        assert t[j] == items[j + 1] == s[j + 1 + i];
      }
    }
  }

  /** The item clear()'s loop removes at pass i is the one at position 2 * i
    of the original list. */
  lemma EvenStep<T>(s: seq<T>, items: seq<T>, removed: seq<T>, i: nat)
    requires ClearInv(s, items, i) && i < |items|
    requires |removed| == i && forall j :: 0 <= j < i ==> removed[j] == s[2 * j]
    ensures forall j :: 0 <= j < i + 1 ==> (removed + [items[i]])[j] == s[2 * j]
  {
  }

  /** A sequence with the odd-position characterisation is OddPositions. */
  lemma OddPositionsUnique<T>(s: seq<T>, r: seq<T>)
    requires 2 * |r| <= |s| <= 2 * |r| + 1
    requires forall j :: 0 <= j < |r| ==> r[j] == s[2 * j + 1]
    ensures r == OddPositions(s)
  {
  }

  /** A sequence with the even-position characterisation is EvenPositions. */
  lemma EvenPositionsUnique<T>(s: seq<T>, r: seq<T>)
    requires 2 * |r| - 1 <= |s| <= 2 * |r|
    requires forall j :: 0 <= j < |r| ==> r[j] == s[2 * j]
    ensures r == EvenPositions(s)
  {
  }

  /** With two plots in the figure, clear() as written leaves the second one
      in the layout although the figure reports itself cleared. */
  method ClearLeavesPlotExample() returns (fig: QwtFigure)
    ensures |fig.lay.items| == 1 && fig.lay.items[0].item.widget == Some(Widget(1, true, false))
    ensures fig.events == [FigureCleared]
  {
    fig := new QwtFigure();
    fig.AddAxes(Some(Widget(0, true, false)), UnitRectF);
    fig.AddAxes(Some(Widget(1, true, false)), UnitRectF);
    fig.ClearAsWritten();
  }

  /** Taking the only plot, which is current, leaves the current axes pointing
      at the plot that is no longer in the figure. */
  method TakeOnlyPlotExample() returns (fig: QwtFigure, taken: bool)
    ensures taken && fig.lay.items == []
    ensures fig.currentAxes == Some(Widget(7, true, false))
  {
    fig := new QwtFigure();
    fig.AddAxes(Some(Widget(7, true, false)), UnitRectF);
    taken := fig.TakeAxes(Some(Widget(7, true, false)));
  }
}
