/** QwtPlotLayout: the settings it forwards to its layout engine (canvas
    margins, canvas alignment, spacing, legend position and ratio), the
    rectangles of the last layout, and the aligned axis sizes of the size
    hint. */
module PlotLayout {
  import opened Types
  import Axis
  import opened PlotLayoutEngine

  /** LayoutHintData::ScaleData: the hint size of an axis, its minimum border
      distances and its tick offset. */
  datatype HintScale = HintScale(w: int, h: int, minLeft: int, minRight: int, tickOffset: int)

  /** LayoutHintData: the scale data and the canvas border per axis. */
  datatype HintData = HintData(scales: seq<HintScale>, canvasBorder: seq<int>)
  {
    predicate Valid() { |scales| == 4 && |canvasBorder| == 4 }
  }

  /** The part of a border distance that reaches beyond the canvas border,
      at most limit; nothing when the axis on that side has no extent or the
      distance does not reach beyond the border. */
  function Shift(present: bool, minDist: int, border: int, limit: int): int {
    if present && minDist - border > 0 then Min(minDist - border, limit) else 0
  }

  /** LayoutHintData::alignedSize: an x axis' hint width less the parts of its
      border distances that the y axes already cover, a y axis' hint height
      less the parts the x axes' ticks already cover, and 0 for an axis
      without hint extent. */
  function AlignedSize(hd: HintData, axisId: int): (r: int)
    requires hd.Valid() && Axis.IsValid(axisId)
    ensures Axis.IsXAxis(axisId) && hd.scales[axisId].w != 0 ==>
      var sd := hd.scales[axisId];
      var leftW := hd.scales[Axis.YLeft].w;
      var rightW := hd.scales[Axis.YRight].w;
      (leftW >= 0 && rightW >= 0 ==> sd.w - leftW - rightW <= r <= sd.w)
    ensures Axis.IsYAxis(axisId) && hd.scales[axisId].h != 0 ==>
      var sd := hd.scales[axisId];
      var bottomT := hd.scales[Axis.XBottom].tickOffset;
      var topT := hd.scales[Axis.XTop].tickOffset;
      (bottomT >= 0 && topT >= 0 ==> sd.h - bottomT - topT <= r <= sd.h)
    ensures Axis.IsXAxis(axisId) && hd.scales[axisId].w == 0 ==> r == 0
    ensures Axis.IsYAxis(axisId) && hd.scales[axisId].h == 0 ==> r == 0
  {
    var sd := hd.scales[axisId];
    if sd.w != 0 && Axis.IsXAxis(axisId) then
      var leftW := hd.scales[Axis.YLeft].w;
      var rightW := hd.scales[Axis.YRight].w;
      sd.w - Shift(leftW != 0, sd.minLeft, hd.canvasBorder[Axis.YLeft], leftW)
           - Shift(rightW != 0, sd.minRight, hd.canvasBorder[Axis.YRight], rightW)
    else if sd.h != 0 && Axis.IsYAxis(axisId) then
      sd.h - Shift(hd.scales[Axis.XBottom].h != 0, sd.minLeft, hd.canvasBorder[Axis.XBottom], hd.scales[Axis.XBottom].tickOffset)
           - Shift(hd.scales[Axis.XTop].h != 0, sd.minRight, hd.canvasBorder[Axis.XTop], hd.scales[Axis.XTop].tickOffset)
    else 0
  }

  /** When the minimum border distances stay within the canvas borders,
      nothing is subtracted. */
  lemma {:induction false} AlignedSizeUnshifted(hd: HintData, axisId: int)
    requires hd.Valid() && Axis.IsValid(axisId)
    requires Axis.IsXAxis(axisId) ==>
      hd.scales[axisId].minLeft <= hd.canvasBorder[Axis.YLeft] && hd.scales[axisId].minRight <= hd.canvasBorder[Axis.YRight]
    requires Axis.IsYAxis(axisId) ==>
      hd.scales[axisId].minLeft <= hd.canvasBorder[Axis.XBottom] && hd.scales[axisId].minRight <= hd.canvasBorder[Axis.XTop]
    ensures Axis.IsXAxis(axisId) ==> AlignedSize(hd, axisId) == hd.scales[axisId].w
    ensures Axis.IsYAxis(axisId) ==> AlignedSize(hd, axisId) == hd.scales[axisId].h
  {
  }

  class QwtPlotLayout {
    const engine: QwtPlotLayoutEngine
    var titleRect: RectF
    var footerRect: RectF
    var legendRect: RectF
    var canvasRect: RectF
    var scaleRects: seq<RectF>

    ghost predicate Valid()
      reads this, engine
    {
      engine.Valid() && |scaleRects| == 4
    }

    /** A bottom legend with the default ratio 0.33, canvas margin -1 on every
      side, no canvas alignment, every rectangle empty; the spacing keeps
      the engine's 5. */
    constructor()
      ensures Valid() && fresh(engine)
      ensures engine.legendPos == BottomLegend && engine.legendRatio == 0.33 && engine.spacing == 5
      ensures forall a :: 0 <= a < 4 ==> CanvasMargin(a) == -1 && !AlignCanvasToScale(a)
      ensures titleRect == NullRectF && footerRect == NullRectF && legendRect == NullRectF && canvasRect == NullRectF
      ensures scaleRects == [NullRectF, NullRectF, NullRectF, NullRectF]
    {
      engine := new QwtPlotLayoutEngine();
      titleRect, footerRect, legendRect, canvasRect := NullRectF, NullRectF, NullRectF, NullRectF;
      scaleRects := [NullRectF, NullRectF, NullRectF, NullRectF];
      new;
      SetLegendPosition(BottomLegend, 0.0);
      SetCanvasMargin(-1, -1);
      SetAlignCanvasToScales(false);
      Invalidate();
    }

    /** QwtPlotLayout::setCanvasMargin: a margin below -1 becomes -1; axisPos
      -1 sets all four sides, a valid axis only its own, anything else
      nothing. */
    method SetCanvasMargin(margin: int, axisPos: int)
      requires Valid()
      modifies engine
      ensures Valid()
      ensures var m := Max(margin, -1);
        forall a :: 0 <= a < 4 ==>
          engine.canvasMargin[a] == (if axisPos == -1 || axisPos == a then ToUInt32(m) else old(engine.canvasMargin[a]))
      ensures InInt32(margin) ==> forall a :: 0 <= a < 4 && (axisPos == -1 || axisPos == a) ==> CanvasMargin(a) == Max(margin, -1)
      ensures engine.legendPos == old(engine.legendPos) && engine.legendRatio == old(engine.legendRatio)
      ensures engine.spacing == old(engine.spacing) && engine.alignCanvas == old(engine.alignCanvas)
    {
      var m := margin;
      if m < -1 {
        m := -1;
      }
      if axisPos == -1 {
        for a := 0 to 4
          invariant engine.Valid()
          invariant forall b :: 0 <= b < 4 ==> engine.canvasMargin[b] == (if b < a then ToUInt32(m) else old(engine.canvasMargin[b]))
          invariant engine.legendPos == old(engine.legendPos) && engine.legendRatio == old(engine.legendRatio)
          invariant engine.spacing == old(engine.spacing) && engine.alignCanvas == old(engine.alignCanvas)
        {
          engine.SetCanvasMargin(a, m);
        }
      } else if Axis.IsValid(axisPos) {
        engine.SetCanvasMargin(axisPos, m);
      }
      if InInt32(margin) {
        UInt32RoundTrip(m);
      }
    }

    /** QwtPlotLayout::canvasMargin: 0 for an invalid axis. */
    function CanvasMargin(axisPos: int): (r: int)
      requires Valid()
      reads this, engine
      ensures !Axis.IsValid(axisPos) ==> r == 0
      ensures Axis.IsValid(axisPos) ==> ToUInt32(r) == engine.canvasMargin[axisPos]
    {
      if Axis.IsValid(axisPos) then engine.CanvasMargin(axisPos) else 0
    }

    /** QwtPlotLayout::setAlignCanvasToScales: the flag for every side. */
    method SetAlignCanvasToScales(on: bool)
      requires Valid()
      modifies engine
      ensures Valid()
      ensures engine.alignCanvas == [on, on, on, on]
      ensures engine.legendPos == old(engine.legendPos) && engine.legendRatio == old(engine.legendRatio)
      ensures engine.spacing == old(engine.spacing) && engine.canvasMargin == old(engine.canvasMargin)
    {
      for a := 0 to 4
        invariant engine.Valid()
        invariant forall b :: 0 <= b < 4 ==> engine.alignCanvas[b] == (if b < a then on else old(engine.alignCanvas[b]))
        invariant engine.legendPos == old(engine.legendPos) && engine.legendRatio == old(engine.legendRatio)
        invariant engine.spacing == old(engine.spacing) && engine.canvasMargin == old(engine.canvasMargin)
      {
        engine.SetAlignCanvas(a, on);
      }
    }

    /** QwtPlotLayout::setAlignCanvasToScale: ignored for an invalid axis. */
    method SetAlignCanvasToScale(axisPos: int, on: bool)
      requires Valid()
      modifies engine
      ensures Valid()
      ensures Axis.IsValid(axisPos) ==> engine.alignCanvas == old(engine.alignCanvas)[axisPos := on]
      ensures !Axis.IsValid(axisPos) ==> engine.alignCanvas == old(engine.alignCanvas)
      ensures engine.legendPos == old(engine.legendPos) && engine.legendRatio == old(engine.legendRatio)
      ensures engine.spacing == old(engine.spacing) && engine.canvasMargin == old(engine.canvasMargin)
    {
      if Axis.IsValid(axisPos) {
        engine.SetAlignCanvas(axisPos, on);
      }
    }

    /** QwtPlotLayout::alignCanvasToScale: false for an invalid axis. */
    function AlignCanvasToScale(axisPos: int): (r: bool)
      requires Valid()
      reads this, engine
      ensures r <==> Axis.IsValid(axisPos) && engine.alignCanvas[axisPos]
    {
      Axis.IsValid(axisPos) && engine.alignCanvas[axisPos]
    }

    /** QwtPlotLayout::setSpacing: a negative spacing becomes 0. */
    method SetSpacing(spacing: int)
      requires Valid()
      modifies engine
      ensures Valid()
      ensures engine.spacing == Max(0, spacing)
      ensures spacing >= 0 ==> engine.spacing == spacing
      ensures engine.legendPos == old(engine.legendPos) && engine.legendRatio == old(engine.legendRatio)
      ensures engine.canvasMargin == old(engine.canvasMargin) && engine.alignCanvas == old(engine.alignCanvas)
    {
      engine.SetSpacing(Max(0, spacing));
    }

    /** The ratio setLegendPosition stores: above 1 becomes 1, and 0 or below
      becomes the default, 0.33 for a top or bottom legend and 0.5 for a
      left or right one. */
    static function EffectiveRatio(pos: int, ratio: real): (r: real)
      requires pos in {LeftLegend, RightLegend, BottomLegend, TopLegend}
      ensures 0.0 < r <= 1.0
      ensures 0.0 < ratio <= 1.0 ==> r == ratio
      ensures ratio > 1.0 ==> r == 1.0
      ensures ratio <= 0.0 && (pos == TopLegend || pos == BottomLegend) ==> r == 0.33
      ensures ratio <= 0.0 && (pos == LeftLegend || pos == RightLegend) ==> r == 0.5
    {
      var capped := if ratio > 1.0 then 1.0 else ratio;
      if capped <= 0.0 then (if pos == TopLegend || pos == BottomLegend then 0.33 else 0.5)
      else capped
    }

    /** QwtPlotLayout::setLegendPosition: stores the position and its
      effective ratio; an unknown position changes nothing. */
    method SetLegendPosition(pos: int, ratio: real)
      requires Valid()
      modifies engine
      ensures Valid()
      ensures pos in {LeftLegend, RightLegend, BottomLegend, TopLegend} ==>
        engine.legendPos == pos && engine.legendRatio == EffectiveRatio(pos, ratio)
      ensures pos !in {LeftLegend, RightLegend, BottomLegend, TopLegend} ==>
        engine.legendPos == old(engine.legendPos) && engine.legendRatio == old(engine.legendRatio)
      ensures engine.spacing == old(engine.spacing)
      ensures engine.canvasMargin == old(engine.canvasMargin) && engine.alignCanvas == old(engine.alignCanvas)
    {
      var r := ratio;
      if r > 1.0 {
        r := 1.0;
      }
      if pos == TopLegend || pos == BottomLegend {
        if r <= 0.0 {
          r := 0.33;
        }
        engine.SetLegendRatio(r);
        engine.SetLegendPos(pos);
      } else if pos == LeftLegend || pos == RightLegend {
        if r <= 0.0 {
          r := 0.5;
        }
        engine.SetLegendRatio(r);
        engine.SetLegendPos(pos);
      }
    }

    /** QwtPlotLayout::setLegendRatio: the current position with a new ratio. */
    method SetLegendRatio(ratio: real)
      requires Valid()
      modifies engine
      ensures Valid()
      ensures engine.legendPos == old(engine.legendPos)
      ensures old(engine.legendPos) in {LeftLegend, RightLegend, BottomLegend, TopLegend} ==>
        engine.legendRatio == EffectiveRatio(engine.legendPos, ratio)
      ensures engine.spacing == old(engine.spacing)
      ensures engine.canvasMargin == old(engine.canvasMargin) && engine.alignCanvas == old(engine.alignCanvas)
    {
      SetLegendPosition(engine.legendPos, ratio);
    }

    /** QwtPlotLayout::setScaleRect: ignored for an invalid axis. */
    method SetScaleRect(axisId: int, rect: RectF)
      requires Valid()
      modifies this
      ensures Valid()
      ensures Axis.IsValid(axisId) ==> scaleRects == old(scaleRects)[axisId := rect] && ScaleRect(axisId) == rect
      ensures !Axis.IsValid(axisId) ==> scaleRects == old(scaleRects)
      ensures titleRect == old(titleRect) && footerRect == old(footerRect)
      ensures legendRect == old(legendRect) && canvasRect == old(canvasRect)
    {
      if Axis.IsValid(axisId) {
        scaleRects := scaleRects[axisId := rect];
      }
    }

    /** QwtPlotLayout::scaleRect: the empty rectangle for an invalid axis. */
    function ScaleRect(axisId: int): (r: RectF)
      requires Valid()
      reads this, engine
      ensures !Axis.IsValid(axisId) ==> r == NullRectF
      ensures Axis.IsValid(axisId) ==> r == scaleRects[axisId]
    {
      if Axis.IsValid(axisId) then scaleRects[axisId] else NullRectF
    }

    /** QwtPlotLayout::invalidate: every rectangle becomes empty. */
    method Invalidate()
      requires Valid()
      modifies this
      ensures Valid()
      ensures titleRect == NullRectF && footerRect == NullRectF && legendRect == NullRectF && canvasRect == NullRectF
      ensures scaleRects == [NullRectF, NullRectF, NullRectF, NullRectF]
      ensures forall a :: 0 <= a < 4 ==> ScaleRect(a) == NullRectF
    {
      titleRect, footerRect, legendRect, canvasRect := NullRectF, NullRectF, NullRectF, NullRectF;
      var rects := scaleRects;
      for a := 0 to 4
        invariant |rects| == 4
        invariant forall b :: 0 <= b < a ==> rects[b] == NullRectF
      {
        rects := rects[a := NullRectF];
      }
      assert rects == [NullRectF, NullRectF, NullRectF, NullRectF];
      scaleRects := rects;
    }
  }

  /** setLegendPosition followed by setLegendRatio with the same ratio ends
      with the same settings, and a valid ratio is stored as given. */
  lemma {:induction false} LegendRatioStable(pos: int, ratio: real)
    requires pos in {LeftLegend, RightLegend, BottomLegend, TopLegend}
    ensures QwtPlotLayout.EffectiveRatio(pos, QwtPlotLayout.EffectiveRatio(pos, ratio)) == QwtPlotLayout.EffectiveRatio(pos, ratio)
  {
  }
}
