/** QwtPlotLayoutEngine: the space reserved for title, footer and axes
    (Dimensions), the legend rectangle, and the settings the layout keeps
    (legend position and ratio, spacing, canvas margins and alignment).
    Text metrics (QwtText::heightForWidth, QwtScaleWidget's
    titleHeightForWidth) are not part of this model and are passed in as
    functions. */
module PlotLayoutEngine {
  import opened Types
  import Axis

  /** QwtPlot::LegendPosition. */
  const LeftLegend: int := 0
  const RightLegend: int := 1
  const BottomLegend: int := 2
  const TopLegend: int := 3

  /** LayoutData::Label. */
  const Title: int := 0
  const Footer: int := 1

  /** QwtPlotLayout::Options, one flag each. */
  datatype Options = Options(ignoreScrollbars: bool, ignoreFrames: bool, ignoreLegend: bool,
                             ignoreTitle: bool, ignoreFooter: bool)

  const TwoPow32: int := 0x1_0000_0000
  const TwoPow31: int := 0x8000_0000

  /** An int stored in an unsigned int: its value modulo 2^32. */
  function ToUInt32(v: int): (u: nat)
    ensures u < TwoPow32
  {
    v % TwoPow32
  }

  /** An unsigned int read back as an int (two's complement). */
  function ToInt32(u: nat): int
    requires u < TwoPow32
  {
    if u < TwoPow31 then u else u - TwoPow32
  }

  /** The int result of int + unsigned arithmetic: computed modulo 2^32 and
      read back as an int. */
  function WrapInt32(v: int): int {
    ToInt32(v % TwoPow32)
  }

  predicate InInt32(v: int) { -TwoPow31 <= v < TwoPow31 }

  /** A 32-bit int stored as unsigned and read back is unchanged. */
  lemma {:induction false} UInt32RoundTrip(v: int)
    requires InInt32(v)
    ensures ToInt32(ToUInt32(v)) == v
  {
    if v < 0 {
      assert v % TwoPow32 == v + TwoPow32;
    } else {
      assert v % TwoPow32 == v;
    }
  }

  /** Adding a 32-bit int stored as unsigned to an int wraps back to the
      signed sum when that sum fits in 32 bits. */
  lemma {:induction false} WrapAddSigned(base: int, v: int)
    requires InInt32(base) && InInt32(v) && InInt32(base + v)
    ensures WrapInt32(base + ToUInt32(v)) == base + v
  {
    var u := ToUInt32(v);
    if v < 0 {
      assert u == v + TwoPow32;
      assert (base + u) % TwoPow32 == (base + v) % TwoPow32;
    } else {
      assert u == v;
    }
    if base + v < 0 {
      assert (base + v) % TwoPow32 == base + v + TwoPow32;
    } else {
      assert (base + v) % TwoPow32 == base + v;
    }
  }

  /** QwtPlotLayoutEngine::Dimensions: the pixels reserved for title, footer
      and each axis. */
  datatype Dimensions = Dimensions(dimTitle: int, dimFooter: int, dimAxes: seq<int>)
  {
    predicate Valid() { |dimAxes| == 4 }

    function DimYAxes(): int
      requires Valid()
    {
      dimAxes[Axis.YLeft] + dimAxes[Axis.YRight]
    }

    function DimXAxes(): int
      requires Valid()
    {
      dimAxes[Axis.XTop] + dimAxes[Axis.XBottom]
    }

    /** Dimensions::centered: the label keeps its vertical geometry and spans
      the width between the two y axes. */
    function Centered(rect: RectF, labelRect: RectF): (r: RectF)
      requires Valid()
      ensures r.y == labelRect.y && r.height == labelRect.height
      ensures r.x == rect.x + dimAxes[Axis.YLeft] as real
      ensures r.Right() == rect.Right() - dimAxes[Axis.YRight] as real
    {
      SetWidth(SetLeft(labelRect, rect.x + dimAxes[Axis.YLeft] as real), rect.width - DimYAxes() as real)
    }

    /** Dimensions::innerRect: the rectangle left inside the axes; an extent
      that would be negative collapses to 0 at the centre of rect. */
    function InnerRect(rect: RectF): (r: RectF)
      requires Valid()
      ensures r.width >= 0.0 && r.height >= 0.0
      ensures rect.width - DimYAxes() as real >= 0.0 ==>
        r.x == rect.x + dimAxes[Axis.YLeft] as real && r.Right() == rect.Right() - dimAxes[Axis.YRight] as real
      ensures rect.width - DimYAxes() as real < 0.0 ==> r.x == rect.x + rect.width / 2.0 && r.width == 0.0
      ensures rect.height - DimXAxes() as real >= 0.0 ==>
        r.y == rect.y + dimAxes[Axis.XTop] as real && r.Bottom() == rect.Bottom() - dimAxes[Axis.XBottom] as real
      ensures rect.height - DimXAxes() as real < 0.0 ==> r.y == rect.y + rect.height / 2.0 && r.height == 0.0
    {
      var r0 := RectF(rect.x + dimAxes[Axis.YLeft] as real, rect.y + dimAxes[Axis.XTop] as real,
                      rect.width - DimYAxes() as real, rect.height - DimXAxes() as real);
      var r1 := if r0.width < 0.0 then SetWidth(SetLeft(r0, rect.x + rect.width / 2.0), 0.0) else r0;
      if r1.height < 0.0 then SetHeight(SetTop(r1, rect.y + rect.height / 2.0), 0.0) else r1
    }
  }

  /** Dimensions(): every dimension 0. */
  const InitialDimensions := Dimensions(0, 0, [0, 0, 0, 0])

  /** With non-negative axis dimensions that fit, the inner rectangle lies
      inside rect, and a label centred by the same dimensions spans exactly
      its width. */
  lemma {:induction false} InnerRectInside(d: Dimensions, rect: RectF, labelRect: RectF)
    requires d.Valid() && forall a :: 0 <= a < 4 ==> d.dimAxes[a] >= 0
    requires rect.width - d.DimYAxes() as real >= 0.0 && rect.height - d.DimXAxes() as real >= 0.0
    ensures var r := d.InnerRect(rect);
      rect.x <= r.x && r.Right() <= rect.Right() && rect.y <= r.y && r.Bottom() <= rect.Bottom()
    ensures var c := d.Centered(rect, labelRect);
      c.x == d.InnerRect(rect).x && c.width == d.InnerRect(rect).width
  {
    assert d.dimAxes[Axis.YLeft] >= 0 && d.dimAxes[Axis.YRight] >= 0;
    assert d.dimAxes[Axis.XTop] >= 0 && d.dimAxes[Axis.XBottom] >= 0;
  }

  /** LayoutData::LegendData. */
  datatype LegendData = LegendData(frameWidth: int, hScrollExtent: int, vScrollExtent: int, hint: Size)

  /** LayoutData::LabelData: whether the text is empty and the frame width. */
  datatype LabelData = LabelData(textEmpty: bool, frameWidth: int)

  /** LayoutData::ScaleData (the fields the layout arithmetic reads). */
  datatype ScaleData = ScaleData(isVisible: bool, titleEmpty: bool, start: int, end: int,
                                 baseLineOffset: int, tickOffset: real, dimWithoutTitle: int, edgeMargin: int)

  /** LayoutData::ScaleData::reset: an invisible axis takes no space. */
  const ResetScaleData := ScaleData(false, true, 0, 0, 0, 0.0, 0, 0)

  datatype LayoutData = LayoutData(legendData: LegendData, labelData: seq<LabelData>,
                                   scaleData: seq<ScaleData>, contentsMargins: seq<int>)
  {
    predicate Valid() { |labelData| == 2 && |scaleData| == 4 && |contentsMargins| == 4 }

    /** LayoutData::hasSymmetricYAxes: both y axes visible or both hidden. */
    predicate HasSymmetricYAxes()
      requires Valid()
    {
      scaleData[Axis.YLeft].isVisible == scaleData[Axis.YRight].isVisible
    }
  }

  /** The width the title or footer text is laid out in: the full width,
      less the axes' width when the y axes are not symmetric. */
  function LabelTextWidth(layoutData: LayoutData, width: real, axesWidth: int): (w: real)
    requires layoutData.Valid()
  {
    if layoutData.HasSymmetricYAxes() then width else width - axesWidth as real
  }

  /** QwtPlotLayoutEngine::heightForWidth: 0 for an empty text; otherwise the
      text height rounded up, plus the frame on both sides unless frames are
      ignored. */
  function HeightForWidth(labelType: int, layoutData: LayoutData, options: Options, width: real, axesWidth: int,
                          textHeight: (int, real) -> real): (r: int)
    requires layoutData.Valid() && (labelType == Title || labelType == Footer)
    ensures layoutData.labelData[labelType].textEmpty ==> r == 0
    ensures !layoutData.labelData[labelType].textEmpty ==>
      var frames := if options.ignoreFrames then 0 else 2 * layoutData.labelData[labelType].frameWidth;
      var h := textHeight(labelType, LabelTextWidth(layoutData, width, axesWidth));
      h <= (r - frames) as real < h + 1.0
  {
    var labelData := layoutData.labelData[labelType];
    if labelData.textEmpty then 0
    else
      var d := Ceil(textHeight(labelType, LabelTextWidth(layoutData, width, axesWidth)));
      if options.ignoreFrames then d else d + 2 * labelData.frameWidth
  }

  /** Everything one pass of layoutDimensions reads besides the dimensions
      themselves. */
  datatype PassContext = PassContext(options: Options, layoutData: LayoutData, rect: RectF,
                                     backboneOffset: seq<int>, spacing: int,
                                     textHeight: (int, real) -> real, titleHeight: (int, int) -> int)
  {
    predicate Valid() { layoutData.Valid() && |backboneOffset| == 4 }
  }

  /** The backbone offset of one axis: the canvas contents margin unless
      frames are ignored, plus the (unsigned) canvas margin unless the canvas
      is aligned to that scale. */
  function BackboneOffset(options: Options, layoutData: LayoutData, canvasMargin: nat, alignCanvas: bool, axisPos: int): int
    requires layoutData.Valid() && Axis.IsValid(axisPos)
  {
    var base := if options.ignoreFrames then 0 else layoutData.contentsMargins[axisPos];
    if alignCanvas then base else WrapInt32(base + canvasMargin)
  }

  /** The length an axis' title is laid out in, given the current dimensions. */
  function AxisLength(c: PassContext, d: Dimensions, axisPos: int): real
    requires c.Valid() && d.Valid() && Axis.IsValid(axisPos)
  {
    var sd := c.layoutData.scaleData[axisPos];
    var bb := c.backboneOffset;
    if Axis.IsXAxis(axisPos) then
      c.rect.width - d.DimYAxes() as real - (sd.start + sd.end) as real
      - (if d.dimAxes[Axis.YRight] > 0 then 1.0 else 0.0)
      + Min(d.dimAxes[Axis.YLeft], sd.start - bb[Axis.YLeft]) as real
      + Min(d.dimAxes[Axis.YRight], sd.end - bb[Axis.YRight]) as real
    else
      c.rect.height - d.DimXAxes() as real - (sd.start + sd.end) as real - 1.0
      - (if d.dimAxes[Axis.XBottom] <= 0 then 1.0 else 0.0)
      - (if d.dimAxes[Axis.XTop] <= 0 then 1.0 else 0.0)
      + (if d.dimAxes[Axis.XBottom] > 0
         then MinR(c.layoutData.scaleData[Axis.XBottom].tickOffset, (sd.start - bb[Axis.XBottom]) as real) else 0.0)
      + (if d.dimAxes[Axis.XTop] > 0
         then MinR(c.layoutData.scaleData[Axis.XTop].tickOffset, (sd.end - bb[Axis.XTop]) as real) else 0.0)
      - (if d.dimTitle > 0 then (d.dimTitle + c.spacing) as real else 0.0)
  }

  /** The dimension an axis asks for: its extent without title, plus the
      title height for the available length when it has a title. */
  function AxisDemand(c: PassContext, d: Dimensions, axisPos: int): int
    requires c.Valid() && d.Valid() && Axis.IsValid(axisPos)
  {
    var sd := c.layoutData.scaleData[axisPos];
    sd.dimWithoutTitle + (if sd.titleEmpty then 0 else c.titleHeight(axisPos, AxisLength(c, d, axisPos).Floor))
  }

  /** The title step of a pass: the title dimension grows to the title's
      height when that is larger, unless titles are ignored. */
  function TitleStep(c: PassContext, d: Dimensions): (r: Dimensions)
    requires c.Valid() && d.Valid()
    ensures r.Valid()
    ensures r.dimFooter == d.dimFooter && r.dimAxes == d.dimAxes && d.dimTitle <= r.dimTitle
    ensures c.options.ignoreTitle ==> r == d
    ensures !c.options.ignoreTitle ==>
      r.dimTitle >= HeightForWidth(Title, c.layoutData, c.options, c.rect.width, d.DimYAxes(), c.textHeight) &&
      (r.dimTitle == d.dimTitle || r.dimTitle == HeightForWidth(Title, c.layoutData, c.options, c.rect.width, d.DimYAxes(), c.textHeight))
  {
    if c.options.ignoreTitle then d
    else
      var h := HeightForWidth(Title, c.layoutData, c.options, c.rect.width, d.DimYAxes(), c.textHeight);
      if h > d.dimTitle then d.(dimTitle := h) else d
  }

  /** The footer step, likewise. */
  function FooterStep(c: PassContext, d: Dimensions): (r: Dimensions)
    requires c.Valid() && d.Valid()
    ensures r.Valid()
    ensures r.dimTitle == d.dimTitle && r.dimAxes == d.dimAxes && d.dimFooter <= r.dimFooter
    ensures c.options.ignoreFooter ==> r == d
    ensures !c.options.ignoreFooter ==>
      r.dimFooter >= HeightForWidth(Footer, c.layoutData, c.options, c.rect.width, d.DimYAxes(), c.textHeight) &&
      (r.dimFooter == d.dimFooter || r.dimFooter == HeightForWidth(Footer, c.layoutData, c.options, c.rect.width, d.DimYAxes(), c.textHeight))
  {
    if c.options.ignoreFooter then d
    else
      var h := HeightForWidth(Footer, c.layoutData, c.options, c.rect.width, d.DimYAxes(), c.textHeight);
      if h > d.dimFooter then d.(dimFooter := h) else d
  }

  /** The step for one axis: a visible axis grows to its demand when that is
      larger. */
  function AxisStep(c: PassContext, d: Dimensions, axisPos: int): (r: Dimensions)
    requires c.Valid() && d.Valid() && Axis.IsValid(axisPos)
    ensures r.Valid()
    ensures r.dimTitle == d.dimTitle && r.dimFooter == d.dimFooter
    ensures forall a :: 0 <= a < 4 && a != axisPos ==> r.dimAxes[a] == d.dimAxes[a]
    ensures d.dimAxes[axisPos] <= r.dimAxes[axisPos]
    ensures !c.layoutData.scaleData[axisPos].isVisible ==> r == d
    ensures c.layoutData.scaleData[axisPos].isVisible ==>
      r.dimAxes[axisPos] >= AxisDemand(c, d, axisPos) &&
      (r.dimAxes[axisPos] == d.dimAxes[axisPos] || r.dimAxes[axisPos] == AxisDemand(c, d, axisPos))
  {
    var demand := AxisDemand(c, d, axisPos);
    if c.layoutData.scaleData[axisPos].isVisible && demand > d.dimAxes[axisPos]
    then d.(dimAxes := d.dimAxes[axisPos := demand])
    else d
  }

  /** The axis steps for the axes 0 .. k-1, in order. */
  function AxesUpTo(c: PassContext, d: Dimensions, k: int): (r: Dimensions)
    requires c.Valid() && d.Valid() && 0 <= k <= 4
    ensures r.Valid()
  {
    if k == 0 then d else AxisStep(c, AxesUpTo(c, d, k - 1), k - 1)
  }

  /** One pass of the loop in layoutDimensions. */
  function Pass(c: PassContext, d: Dimensions): (r: Dimensions)
    requires c.Valid() && d.Valid()
    ensures r.Valid() && Grows(d, r)
    ensures !c.options.ignoreTitle ==>
      r.dimTitle >= HeightForWidth(Title, c.layoutData, c.options, c.rect.width, d.DimYAxes(), c.textHeight)
    ensures !c.options.ignoreFooter ==>
      r.dimFooter >= HeightForWidth(Footer, c.layoutData, c.options, c.rect.width, d.DimYAxes(), c.textHeight)
  {
    var f := FooterStep(c, TitleStep(c, d));
    AxesUpToGrows(c, f, 4);
    AxesUpTo(c, f, 4)
  }

  /** d2 is d1 with no dimension smaller. */
  predicate Grows(d1: Dimensions, d2: Dimensions)
    requires d1.Valid() && d2.Valid()
  {
    d1.dimTitle <= d2.dimTitle && d1.dimFooter <= d2.dimFooter &&
    forall a :: 0 <= a < 4 ==> d1.dimAxes[a] <= d2.dimAxes[a]
  }

  function Total(d: Dimensions): int
    requires d.Valid()
  {
    d.dimTitle + d.dimFooter + d.dimAxes[0] + d.dimAxes[1] + d.dimAxes[2] + d.dimAxes[3]
  }

  /** Every dimension lies in [0, cap]. */
  predicate InRange(d: Dimensions, cap: int)
    requires d.Valid()
  {
    0 <= d.dimTitle <= cap && 0 <= d.dimFooter <= cap &&
    forall a :: 0 <= a < 4 ==> 0 <= d.dimAxes[a] <= cap
  }

  /** What the configuration leaves at 0: a dimension for an invisible
      axis, an ignored title and an ignored footer. */
  predicate KeepsIgnoredZero(c: PassContext, d: Dimensions)
    requires c.Valid() && d.Valid()
  {
    (c.options.ignoreTitle ==> d.dimTitle == 0) &&
    (c.options.ignoreFooter ==> d.dimFooter == 0) &&
    forall a :: 0 <= a < 4 && !c.layoutData.scaleData[a].isVisible ==> d.dimAxes[a] == 0
  }

  /** The axis steps only grow the dimensions, leave the other components
      alone and keep the ignored ones at 0. */
  lemma {:induction false} AxesUpToGrows(c: PassContext, d: Dimensions, k: int)
    requires c.Valid() && d.Valid() && 0 <= k <= 4
    ensures Grows(d, AxesUpTo(c, d, k)) && Total(d) <= Total(AxesUpTo(c, d, k))
    ensures AxesUpTo(c, d, k).dimTitle == d.dimTitle && AxesUpTo(c, d, k).dimFooter == d.dimFooter
    ensures KeepsIgnoredZero(c, d) ==> KeepsIgnoredZero(c, AxesUpTo(c, d, k))
    ensures Total(d) == Total(AxesUpTo(c, d, k)) ==> AxesUpTo(c, d, k) == d
  {
    if k > 0 {
      AxesUpToGrows(c, d, k - 1);
      var p := AxesUpTo(c, d, k - 1);
      var r := AxisStep(c, p, k - 1);
      assert Grows(p, r);
      assert Total(p) <= Total(r);
      if Total(d) == Total(r) {
        assert Total(p) == Total(r);
        assert r == p;
      }
    }
  }

  /** A pass never shrinks a dimension, keeps the ignored ones at 0, and
      changes nothing exactly when it adds nothing to the total. */
  lemma {:induction false} PassGrows(c: PassContext, d: Dimensions)
    requires c.Valid() && d.Valid()
    ensures Grows(d, Pass(c, d))
    ensures KeepsIgnoredZero(c, d) ==> KeepsIgnoredZero(c, Pass(c, d))
    ensures Pass(c, d) == d <==> Total(Pass(c, d)) == Total(d)
    ensures Total(d) <= Total(Pass(c, d))
  {
    var t := TitleStep(c, d);
    var f := FooterStep(c, t);
    AxesUpToGrows(c, f, 4);
  }

  /** The largest height any title, footer or axis can ask for, given
      bounds on the text metrics. */
  function Cap(layoutData: LayoutData, maxHeight: int): (cap: int)
    requires layoutData.Valid()
    ensures cap >= 0
  {
    Max(0, maxHeight) + 2 * (AbsInt(layoutData.labelData[0].frameWidth) + AbsInt(layoutData.labelData[1].frameWidth)) +
    AbsInt(layoutData.scaleData[0].dimWithoutTitle) + AbsInt(layoutData.scaleData[1].dimWithoutTitle) +
    AbsInt(layoutData.scaleData[2].dimWithoutTitle) + AbsInt(layoutData.scaleData[3].dimWithoutTitle)
  }

  ghost predicate MetricsBounded(c: PassContext, maxHeight: int) {
    (forall l, w :: c.textHeight(l, w) <= maxHeight as real) &&
    (forall a, w :: c.titleHeight(a, w) <= maxHeight)
  }

  /** A title or footer never asks for more than Cap. */
  lemma {:induction false} LabelDemandBounded(c: PassContext, d: Dimensions, labelType: int, maxHeight: int)
    requires c.Valid() && d.Valid() && MetricsBounded(c, maxHeight) && (labelType == Title || labelType == Footer)
    ensures HeightForWidth(labelType, c.layoutData, c.options, c.rect.width, d.DimYAxes(), c.textHeight)
      <= Cap(c.layoutData, maxHeight)
  {
    var ld := c.layoutData;
    var w := LabelTextWidth(ld, c.rect.width, d.DimYAxes());
    assert c.textHeight(labelType, w) <= maxHeight as real;
    assert Ceil(c.textHeight(labelType, w)) <= maxHeight;
    assert 2 * ld.labelData[labelType].frameWidth <= 2 * AbsInt(ld.labelData[labelType].frameWidth);
  }

  /** An axis never asks for more than Cap. */
  lemma {:induction false} AxisDemandBounded(c: PassContext, d: Dimensions, axisPos: int, maxHeight: int)
    requires c.Valid() && d.Valid() && Axis.IsValid(axisPos) && MetricsBounded(c, maxHeight)
    ensures AxisDemand(c, d, axisPos) <= Cap(c.layoutData, maxHeight)
  {
    var sd := c.layoutData.scaleData[axisPos];
    var cap := Cap(c.layoutData, maxHeight);
    assert sd.dimWithoutTitle <= AbsInt(sd.dimWithoutTitle);
    if !sd.titleEmpty {
      var l := AxisLength(c, d, axisPos).Floor;
      assert c.titleHeight(axisPos, l) <= maxHeight;
      assert AxisDemand(c, d, axisPos) == sd.dimWithoutTitle + c.titleHeight(axisPos, l);
    }
  }

  /** With bounded text metrics, a pass keeps every dimension in [0, Cap]. */
  lemma {:induction false} PassInRange(c: PassContext, d: Dimensions, maxHeight: int)
    requires c.Valid() && d.Valid() && MetricsBounded(c, maxHeight)
    requires InRange(d, Cap(c.layoutData, maxHeight))
    ensures InRange(Pass(c, d), Cap(c.layoutData, maxHeight))
  {
    var t := TitleStep(c, d);
    LabelDemandBounded(c, d, Title, maxHeight);
    assert InRange(t, Cap(c.layoutData, maxHeight));
    var f := FooterStep(c, t);
    LabelDemandBounded(c, t, Footer, maxHeight);
    assert InRange(f, Cap(c.layoutData, maxHeight));
    AxesInRange(c, f, 4, maxHeight);
  }

  lemma {:induction false} AxesInRange(c: PassContext, d: Dimensions, k: int, maxHeight: int)
    requires c.Valid() && d.Valid() && 0 <= k <= 4 && MetricsBounded(c, maxHeight)
    requires InRange(d, Cap(c.layoutData, maxHeight))
    ensures InRange(AxesUpTo(c, d, k), Cap(c.layoutData, maxHeight))
  {
    if k > 0 {
      AxesInRange(c, d, k - 1, maxHeight);
      AxisDemandBounded(c, AxesUpTo(c, d, k - 1), k - 1, maxHeight);
    }
  }

  class QwtPlotLayoutEngine {
    var legendPos: int
    var legendRatio: real
    var spacing: nat
    /** The canvas margins, stored as unsigned ints. */
    var canvasMargin: seq<nat>
    var alignCanvas: seq<bool>

    ghost predicate Valid()
      reads this
    {
      |canvasMargin| == 4 && |alignCanvas| == 4 && forall a :: 0 <= a < 4 ==> canvasMargin[a] < TwoPow32
    }

    /** The engine's defaults: a bottom legend with ratio 1.0 and spacing 5;
      the canvas margins start at 0. The alignment flags are left
      uninitialised by the engine; here they start false. */
    constructor()
      ensures Valid()
      ensures legendPos == BottomLegend && legendRatio == 1.0 && spacing == 5
      ensures canvasMargin == [0, 0, 0, 0] && alignCanvas == [false, false, false, false]
    {
      legendPos, legendRatio, spacing := BottomLegend, 1.0, 5;
      canvasMargin := [0, 0, 0, 0];
      alignCanvas := [false, false, false, false];
    }

    method SetLegendRatio(ratio: real)
      modifies this
      ensures legendRatio == ratio
      ensures legendPos == old(legendPos) && spacing == old(spacing)
      ensures canvasMargin == old(canvasMargin) && alignCanvas == old(alignCanvas)
    {
      legendRatio := ratio;
    }

    method SetLegendPos(pos: int)
      modifies this
      ensures legendPos == pos
      ensures legendRatio == old(legendRatio) && spacing == old(spacing)
      ensures canvasMargin == old(canvasMargin) && alignCanvas == old(alignCanvas)
    {
      legendPos := pos;
    }

    /** setCanvasMargin stores the int in an unsigned field; CanvasMargin reads
      it back. */
    method SetCanvasMargin(axisPos: int, margin: int)
      requires Valid() && Axis.IsValid(axisPos)
      modifies this
      ensures Valid()
      ensures canvasMargin == old(canvasMargin)[axisPos := ToUInt32(margin)]
      ensures InInt32(margin) ==> CanvasMargin(axisPos) == margin
      ensures legendPos == old(legendPos) && legendRatio == old(legendRatio) && spacing == old(spacing)
      ensures alignCanvas == old(alignCanvas)
    {
      canvasMargin := canvasMargin[axisPos := ToUInt32(margin)];
      if InInt32(margin) {
        UInt32RoundTrip(margin);
      }
    }

    function CanvasMargin(axisPos: int): int
      requires Valid() && Axis.IsValid(axisPos)
      reads this
    {
      ToInt32(canvasMargin[axisPos])
    }

    method SetAlignCanvas(axisPos: int, on: bool)
      requires Valid() && Axis.IsValid(axisPos)
      modifies this
      ensures Valid()
      ensures alignCanvas == old(alignCanvas)[axisPos := on]
      ensures legendPos == old(legendPos) && legendRatio == old(legendRatio) && spacing == old(spacing)
      ensures canvasMargin == old(canvasMargin)
    {
      alignCanvas := alignCanvas[axisPos := on];
    }

    method SetSpacing(s: nat)
      modifies this
      ensures spacing == s
      ensures legendPos == old(legendPos) && legendRatio == old(legendRatio)
      ensures canvasMargin == old(canvasMargin) && alignCanvas == old(alignCanvas)
    {
      spacing := s;
    }

    /** The extent layoutLegend gives the legend across its edge: for a left
      or right legend the hint width, at most the ratio of the width, plus
      the scroll bar when the hint is taller than rect; for a top or bottom
      legend the hint height, at most the ratio of the height, but at least
      the scroll bar. */
    function LegendExtent(options: Options, legendData: LegendData, rect: RectF, legendHint: Size): (dim: int)
      reads this
      ensures legendPos == LeftLegend || legendPos == RightLegend ==>
        dim - (if !options.ignoreScrollbars && legendHint.height as real > rect.height then legendData.hScrollExtent else 0)
          == Min(legendHint.width, Trunc(rect.width * legendRatio))
      ensures legendPos != LeftLegend && legendPos != RightLegend ==>
        dim >= legendData.vScrollExtent &&
        (dim == legendData.vScrollExtent || dim == Min(legendHint.height, Trunc(rect.height * legendRatio)))
    {
      if legendPos == LeftLegend || legendPos == RightLegend then
        var dim := Min(legendHint.width, Trunc(rect.width * legendRatio));
        if !options.ignoreScrollbars && legendHint.height as real > rect.height
        then dim + legendData.hScrollExtent else dim
      else
        Max(Min(legendHint.height, Trunc(rect.height * legendRatio)), legendData.vScrollExtent)
    }

    /** QwtPlotLayoutEngine::layoutLegend: a strip of LegendExtent along the
      legend's edge of rect, the rest of rect's geometry kept; an unknown
      position gives rect itself. */
    function LayoutLegend(options: Options, legendData: LegendData, rect: RectF, legendHint: Size): (r: RectF)
      reads this
      ensures var dim := LegendExtent(options, legendData, rect, legendHint) as real;
        (legendPos == LeftLegend ==> r == RectF(rect.x, rect.y, dim, rect.height)) &&
        (legendPos == RightLegend ==> r.Right() == rect.Right() && r.width == dim && r.y == rect.y && r.height == rect.height) &&
        (legendPos == TopLegend ==> r == RectF(rect.x, rect.y, rect.width, dim)) &&
        (legendPos == BottomLegend ==> r.Bottom() == rect.Bottom() && r.height == dim && r.x == rect.x && r.width == rect.width) &&
        (legendPos !in {LeftLegend, RightLegend, TopLegend, BottomLegend} ==> r == rect)
    {
      var dim := LegendExtent(options, legendData, rect, legendHint) as real;
      if legendPos == LeftLegend then SetWidth(rect, dim)
      else if legendPos == RightLegend then SetWidth(SetLeft(rect, rect.Right() - dim), dim)
      else if legendPos == TopLegend then SetHeight(rect, dim)
      else if legendPos == BottomLegend then SetHeight(SetTop(rect, rect.Bottom() - dim), dim)
      else rect
    }

    /** QwtPlotLayoutEngine::alignLegend: a top or bottom legend narrower than
      the canvas takes the canvas' horizontal extent; any other legend
      shorter than the canvas takes its vertical extent; otherwise the
      legend rectangle is kept. */
    function AlignLegend(legendHint: Size, canvasRect: RectF, legendRect: RectF): (r: RectF)
      reads this
      ensures legendPos == BottomLegend || legendPos == TopLegend ==>
        if (legendHint.width as real) < canvasRect.width
        then r == RectF(canvasRect.x, legendRect.y, canvasRect.width, legendRect.height)
        else r == legendRect
      ensures legendPos != BottomLegend && legendPos != TopLegend ==>
        if (legendHint.height as real) < canvasRect.height
        then r == RectF(legendRect.x, canvasRect.y, legendRect.width, canvasRect.height)
        else r == legendRect
    {
      if legendPos == BottomLegend || legendPos == TopLegend then
        if (legendHint.width as real) < canvasRect.width
        then SetWidth(SetLeft(legendRect, canvasRect.x), canvasRect.width)
        else legendRect
      else
        if (legendHint.height as real) < canvasRect.height
        then SetHeight(SetTop(legendRect, canvasRect.y), canvasRect.height)
        else legendRect
    }

    /** The backbone offsets layoutDimensions starts from. */
    method BackboneOffsets(options: Options, layoutData: LayoutData) returns (bb: seq<int>)
      requires Valid() && layoutData.Valid()
      ensures |bb| == 4
      ensures forall a :: 0 <= a < 4 ==>
        bb[a] == BackboneOffset(options, layoutData, canvasMargin[a], alignCanvas[a], a)
      ensures forall a :: 0 <= a < 4 && alignCanvas[a] ==>
        bb[a] == (if options.ignoreFrames then 0 else layoutData.contentsMargins[a])
    {
      bb := [];
      for axisPos := 0 to 4
        invariant |bb| == axisPos
        invariant forall a :: 0 <= a < axisPos ==>
          bb[a] == BackboneOffset(options, layoutData, canvasMargin[a], alignCanvas[a], a)
      {
        var offset := 0;
        if !options.ignoreFrames {
          offset := offset + layoutData.contentsMargins[axisPos];
        }
        if !alignCanvas[axisPos] {
          offset := WrapInt32(offset + canvasMargin[axisPos]);
        }
        bb := bb + [offset];
      }
    }

    /** QwtPlotLayoutEngine::layoutDimensions: passes over title, footer and
      the four axes, each growing its dimension to what it needs given the
      others, until a pass changes nothing. The result is the first iterate
      that a pass leaves unchanged, no dimension is negative, and an ignored title or footer and
      an invisible axis take no space. The loop terminates because the text
      metrics are bounded. */
    method LayoutDimensions(options: Options, layoutData: LayoutData, rect: RectF,
                            textHeight: (int, real) -> real, titleHeight: (int, int) -> int,
                            ghost maxHeight: int)
      returns (dims: Dimensions, ghost c: PassContext)
      requires Valid() && layoutData.Valid()
      requires forall l, w :: textHeight(l, w) <= maxHeight as real
      requires forall a, w :: titleHeight(a, w) <= maxHeight
      ensures dims.Valid() && c.Valid()
      ensures c.options == options && c.layoutData == layoutData && c.rect == rect && c.spacing == spacing
      ensures forall a :: 0 <= a < 4 ==>
        c.backboneOffset[a] == BackboneOffset(options, layoutData, canvasMargin[a], alignCanvas[a], a)
      ensures Pass(c, dims) == dims
      ensures Grows(InitialDimensions, dims)
      ensures KeepsIgnoredZero(c, dims)
    {
      var bb := BackboneOffsets(options, layoutData);
      var ctx := PassContext(options, layoutData, rect, bb, spacing, textHeight, titleHeight);
      c := ctx;
      ghost var cap := Cap(layoutData, maxHeight);
      dims := InitialDimensions;
      var done := false;
      while !done
        invariant dims.Valid() && InRange(dims, cap) && KeepsIgnoredZero(c, dims)
        invariant done ==> Pass(c, dims) == dims
        decreases !done, 6 * cap - Total(dims)
      {
        PassGrows(c, dims);
        PassInRange(c, dims, maxHeight);
        var next, changed := OnePass(ctx, dims);
        dims, done := next, !changed;
      }
    }
  }

  /** One pass of layoutDimensions' loop: the title, then the footer, then
    each visible axis grows to its demand. It computes Pass and reports
    whether any dimension grew. */
  method OnePass(c: PassContext, d: Dimensions) returns (next: Dimensions, changed: bool)
    requires c.Valid() && d.Valid()
    ensures next == Pass(c, d)
    ensures changed <==> next != d
  {
    next := d;
    changed := false;
    if !c.options.ignoreTitle {
      var h := HeightForWidth(Title, c.layoutData, c.options, c.rect.width, next.DimYAxes(), c.textHeight);
      if h > next.dimTitle {
        next := next.(dimTitle := h);
        changed := true;
      }
    }
    assert next == TitleStep(c, d);
    if !c.options.ignoreFooter {
      var h := HeightForWidth(Footer, c.layoutData, c.options, c.rect.width, next.DimYAxes(), c.textHeight);
      if h > next.dimFooter {
        next := next.(dimFooter := h);
        changed := true;
      }
    }
    assert next == FooterStep(c, TitleStep(c, d));
    ghost var afterLabels := next;
    for axisPos := 0 to 4
      invariant next == AxesUpTo(c, afterLabels, axisPos)
      invariant next.Valid()
      invariant !changed ==> next == d
      invariant changed ==> Total(next) > Total(d)
    {
      var demand := AxisDemand(c, next, axisPos);
      if c.layoutData.scaleData[axisPos].isVisible && demand > next.dimAxes[axisPos] {
        next := next.(dimAxes := next.dimAxes[axisPos := demand]);
        changed := true;
      }
    }
  }
}
