/** QwtScaleWidget's settings: alignment, margins, spacing, border
    distances, the title-layout flag, selection, zoom factor and color bar,
    with the layout requests and the selectionChanged signal they cause.
    The scale draw's extent and border-distance hint and the title's text
    metrics are not part of this model and are passed in as values. */
module ScaleWidget {
  import opened Types
  import Axis

  /** QwtScaleDraw::Alignment. */
  const BottomScale: int := 0
  const TopScale: int := 1
  const LeftScale: int := 2
  const RightScale: int := 3

  /** QwtScaleWidget::LayoutFlag. */
  datatype LayoutFlag = TitleInverted

  /** The axis a scale alignment stands for; AxisPositions for an unknown
      alignment. */
  function AxisOfAlignment(alignment: int): (r: int)
    ensures Axis.IsValid(r) <==> alignment in {BottomScale, TopScale, LeftScale, RightScale}
    ensures Axis.IsXAxis(r) <==> alignment == BottomScale || alignment == TopScale
    ensures Axis.IsYAxis(r) <==> alignment == LeftScale || alignment == RightScale
  {
    if alignment == BottomScale then Axis.XBottom
    else if alignment == TopScale then Axis.XTop
    else if alignment == LeftScale then Axis.YLeft
    else if alignment == RightScale then Axis.YRight
    else Axis.AxisPositions
  }

  /** The four alignments map to four different axes. */
  lemma {:induction false} AxisOfAlignmentInjective(a1: int, a2: int)
    requires a1 in {BottomScale, TopScale, LeftScale, RightScale}
    requires a2 in {BottomScale, TopScale, LeftScale, RightScale}
    ensures AxisOfAlignment(a1) == AxisOfAlignment(a2) <==> a1 == a2
  {
  }

  class QwtScaleWidget {
    var alignment: int
    var borderDist: seq<int>
    var minBorderDist: seq<int>
    var margin: int
    var edgeMargin: int
    var spacing: int
    var title: string
    var layoutFlags: set<LayoutFlag>
    var isSelected: bool
    var zoomFactor: real
    var colorBarEnabled: bool
    var colorBarWidth: int
    var colorBarInterval: Interval
    /** How often layoutScale() ran, and the selectionChanged signals sent. */
    var layoutCount: nat
    var selectionEvents: seq<bool>

    ghost predicate Valid()
      reads this
    {
      |borderDist| == 2 && |minBorderDist| == 2
    }

    /** initScale: margins 0, spacing 2, border distances 0, the title flag
      inverted only for a right scale, not selected, zoom factor 1.2, the
      color bar disabled with width 10 and an invalid interval. */
    constructor(align: int)
      ensures Valid()
      ensures alignment == align
      ensures margin == 0 && edgeMargin == 0 && spacing == 2
      ensures borderDist == [0, 0] && minBorderDist == [0, 0]
      ensures TitleInverted in layoutFlags <==> align == RightScale
      ensures !isSelected && zoomFactor == 1.2 && title == ""
      ensures !colorBarEnabled && colorBarWidth == 10 && !colorBarInterval.IsValid()
      ensures layoutCount == 0 && selectionEvents == []
    {
      alignment := align;
      layoutFlags := if align == RightScale then {TitleInverted} else {};
      borderDist, minBorderDist := [0, 0], [0, 0];
      margin, edgeMargin, spacing := 0, 0, 2;
      title := "";
      isSelected, zoomFactor := false, 1.2;
      colorBarEnabled, colorBarWidth, colorBarInterval := false, 10, Interval(0.0, -1.0);
      layoutCount, selectionEvents := 0, [];
    }

    /** setLayoutFlag: sets or clears the flag; only a change repaints. */
    method SetLayoutFlag(flag: LayoutFlag, on: bool)
      modifies this
      ensures TestLayoutFlag(flag) == on
      ensures forall f :: f != flag ==> (f in layoutFlags <==> f in old(layoutFlags))
      ensures alignment == old(alignment) && margin == old(margin) && spacing == old(spacing)
      ensures layoutCount == old(layoutCount) && selectionEvents == old(selectionEvents)
    {
      if (flag in layoutFlags) != on {
        if on {
          layoutFlags := layoutFlags + {flag};
        } else {
          layoutFlags := layoutFlags - {flag};
        }
      }
    }

    predicate TestLayoutFlag(flag: LayoutFlag)
      reads this
    {
      flag in layoutFlags
    }

    /** setTitle(QString): only a different text is stored and re-laid out. */
    method SetTitle(t: string)
      modifies this
      ensures title == t
      ensures layoutCount == old(layoutCount) + (if t != old(title) then 1 else 0)
      ensures margin == old(margin) && spacing == old(spacing) && edgeMargin == old(edgeMargin)
      ensures selectionEvents == old(selectionEvents)
    {
      if title != t {
        title := t;
        layoutCount := layoutCount + 1;
      }
    }

    /** setMargin: negative values become 0; only a change re-lays out. */
    method SetMargin(m: int)
      modifies this
      ensures margin == Max(0, m) && margin >= 0
      ensures layoutCount == old(layoutCount) + (if Max(0, m) != old(margin) then 1 else 0)
      ensures spacing == old(spacing) && edgeMargin == old(edgeMargin) && selectionEvents == old(selectionEvents)
    {
      var v := Max(0, m);
      if v != margin {
        margin := v;
        layoutCount := layoutCount + 1;
      }
    }

    /** setSpacing: negative values become 0; only a change re-lays out. */
    method SetSpacing(s: int)
      modifies this
      ensures spacing == Max(0, s) && spacing >= 0
      ensures layoutCount == old(layoutCount) + (if Max(0, s) != old(spacing) then 1 else 0)
      ensures margin == old(margin) && edgeMargin == old(edgeMargin) && selectionEvents == old(selectionEvents)
    {
      var v := Max(0, s);
      if v != spacing {
        spacing := v;
        layoutCount := layoutCount + 1;
      }
    }

    /** setEdgeMargin: negative values become 0; only a change re-lays out. */
    method SetEdgeMargin(offset: int)
      modifies this
      ensures edgeMargin == Max(0, offset) && edgeMargin >= 0
      ensures layoutCount == old(layoutCount) + (if Max(0, offset) != old(edgeMargin) then 1 else 0)
      ensures margin == old(margin) && spacing == old(spacing) && selectionEvents == old(selectionEvents)
    {
      var v := Max(0, offset);
      if v != edgeMargin {
        edgeMargin := v;
        layoutCount := layoutCount + 1;
      }
    }

    /** setAlignment: stores the alignment and re-lays out. */
    method SetAlignment(align: int)
      modifies this
      ensures alignment == align && AxisID() == AxisOfAlignment(align)
      ensures layoutCount == old(layoutCount) + 1
      ensures margin == old(margin) && spacing == old(spacing) && selectionEvents == old(selectionEvents)
    {
      alignment := align;
      layoutCount := layoutCount + 1;
    }

    /** QwtScaleWidget::axisID: the axis of the scale's alignment. */
    function AxisID(): (r: int)
      reads this
      ensures Axis.IsValid(r) <==> alignment in {BottomScale, TopScale, LeftScale, RightScale}
      ensures Axis.IsXAxis(r) <==> alignment == BottomScale || alignment == TopScale
      ensures Axis.IsYAxis(r) <==> alignment == LeftScale || alignment == RightScale
    {
      AxisOfAlignment(alignment)
    }

    predicate IsXAxis()
      reads this
    {
      Axis.IsXAxis(AxisID())
    }

    predicate IsYAxis()
      reads this
    {
      Axis.IsYAxis(AxisID())
    }

    /** setSelected: only a change is stored, and it emits selectionChanged. */
    method SetSelected(selected: bool)
      modifies this
      ensures isSelected == selected
      ensures selectionEvents == old(selectionEvents) + (if selected != old(isSelected) then [selected] else [])
      ensures layoutCount == old(layoutCount) && margin == old(margin) && spacing == old(spacing)
    {
      if isSelected != selected {
        isSelected := selected;
        selectionEvents := selectionEvents + [selected];
      }
    }

    /** setZoomFactor: the factor is bounded to [0.1, 10]. */
    method SetZoomFactor(factor: real)
      modifies this
      ensures 0.1 <= zoomFactor <= 10.0
      ensures 0.1 <= factor <= 10.0 ==> zoomFactor == factor
      ensures factor < 0.1 ==> zoomFactor == 0.1
      ensures factor > 10.0 ==> zoomFactor == 10.0
      ensures layoutCount == old(layoutCount) && isSelected == old(isSelected) && selectionEvents == old(selectionEvents)
    {
      zoomFactor := MaxR(0.1, MinR(10.0, factor));
    }

    /** setBorderDist: only a change is stored and re-laid out. */
    method SetBorderDist(dist1: int, dist2: int)
      requires Valid()
      modifies this
      ensures Valid()
      ensures borderDist == [dist1, dist2]
      ensures layoutCount == old(layoutCount) + (if old(borderDist) != [dist1, dist2] then 1 else 0)
      ensures minBorderDist == old(minBorderDist) && selectionEvents == old(selectionEvents)
    {
      if dist1 != borderDist[0] || dist2 != borderDist[1] {
        borderDist := [dist1, dist2];
        layoutCount := layoutCount + 1;
      } else {
        assert borderDist == [dist1, dist2];
      }
    }

    /** setMinBorderDist: stores both minimum distances. */
    method SetMinBorderDist(start: int, end: int)
      requires Valid()
      modifies this
      ensures Valid()
      ensures GetMinBorderDist() == (start, end)
      ensures borderDist == old(borderDist) && layoutCount == old(layoutCount)
      ensures selectionEvents == old(selectionEvents)
    {
      minBorderDist := [start, end];
    }

    function GetMinBorderDist(): (r: (int, int))
      requires Valid()
      reads this
    {
      (minBorderDist[0], minBorderDist[1])
    }

    /** getBorderDistHint: the scale draw's hint (passed in), raised to the
      minimum border distances. */
    function GetBorderDistHint(drawStart: int, drawEnd: int): (r: (int, int))
      requires Valid()
      reads this
      ensures r.0 >= minBorderDist[0] && r.1 >= minBorderDist[1]
      ensures r.0 >= drawStart && r.1 >= drawEnd
      ensures r.0 == drawStart || r.0 == minBorderDist[0]
      ensures r.1 == drawEnd || r.1 == minBorderDist[1]
    {
      (if drawStart < minBorderDist[0] then minBorderDist[0] else drawStart,
       if drawEnd < minBorderDist[1] then minBorderDist[1] else drawEnd)
    }

    /** setColorBarEnabled: only a change is stored and re-laid out. */
    method SetColorBarEnabled(on: bool)
      modifies this
      ensures colorBarEnabled == on
      ensures layoutCount == old(layoutCount) + (if on != old(colorBarEnabled) then 1 else 0)
      ensures colorBarWidth == old(colorBarWidth) && colorBarInterval == old(colorBarInterval)
      ensures selectionEvents == old(selectionEvents)
    {
      if on != colorBarEnabled {
        colorBarEnabled := on;
        layoutCount := layoutCount + 1;
      }
    }

    /** setColorBarWidth: stored as given; re-laid out only when it changes
      and the bar is enabled. */
    method SetColorBarWidth(width: int)
      modifies this
      ensures colorBarWidth == width
      ensures layoutCount == old(layoutCount) + (if width != old(colorBarWidth) && colorBarEnabled then 1 else 0)
      ensures colorBarEnabled == old(colorBarEnabled) && colorBarInterval == old(colorBarInterval)
      ensures selectionEvents == old(selectionEvents)
    {
      if width != colorBarWidth {
        colorBarWidth := width;
        if colorBarEnabled {
          layoutCount := layoutCount + 1;
        }
      }
    }

    /** setColorMap: stores the interval; re-lays out when the bar is enabled. */
    method SetColorMap(interval: Interval)
      modifies this
      ensures colorBarInterval == interval
      ensures layoutCount == old(layoutCount) + (if colorBarEnabled then 1 else 0)
      ensures colorBarEnabled == old(colorBarEnabled) && colorBarWidth == old(colorBarWidth)
      ensures selectionEvents == old(selectionEvents)
    {
      colorBarInterval := interval;
      if colorBarEnabled {
        layoutCount := layoutCount + 1;
      }
    }

    /** Whether the color bar takes space: enabled with a valid interval. */
    predicate ColorBarShown()
      reads this
    {
      colorBarEnabled && colorBarInterval.IsValid()
    }

    /** dimForLength: the widget's extent across the scale for a given
      length, from the scale draw's extent and the title height for that
      length (both passed in). It is at least margin + extent + 1 +
      edgeMargin, and a title or a shown color bar each add their size plus
      one spacing. */
    function DimForLength(extent: real, titleHeight: int): (dim: int)
      reads this
      ensures var base := margin + Ceil(extent) + 1 + edgeMargin;
        dim - base == (if title != "" then titleHeight + spacing else 0) +
                      (if ColorBarShown() then colorBarWidth + spacing else 0)
      ensures spacing >= 0 && titleHeight >= 0 && colorBarWidth >= 0 ==>
        dim >= margin + Ceil(extent) + 1 + edgeMargin
    {
      var d := margin + Ceil(extent) + 1 + edgeMargin;
      var d1 := if title != "" then d + titleHeight + spacing else d;
      if ColorBarShown() then d1 + colorBarWidth + spacing else d1
    }
  }

  /** What the layout engine keeps as an axis' dimension without title,
      dimForLength less the title height, still holds the spacing that
      separates the title. */
  lemma {:induction false} DimWithoutTitleKeepsSpacing(w: QwtScaleWidget, extent: real, titleHeight: int)
    requires w.title != ""
    ensures w.DimForLength(extent, titleHeight) - titleHeight ==
      w.margin + Ceil(extent) + 1 + w.edgeMargin + w.spacing + (if w.ColorBarShown() then w.colorBarWidth + w.spacing else 0)
  {
  }
}
