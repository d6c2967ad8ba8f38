/** Bounding rectangles of series samples: the rectangle each kind of
    sample spans, their accumulation over an index range in
    qwtBoundingRectT, and the bounding rectangle a point series caches. */
module SeriesData {
  import opened Types

  /** The sample kinds of a series. An OHLC sample spans the interval of
    its four prices. */
  datatype Sample =
    | PointSample(x: real, y: real)
    | Point3DSample(x: real, y: real, z: real)
    | PolarSample(azimuth: real, radius: real)
    | IntervalSample(value: real, minValue: real, maxValue: real)
    | SetSample(value: real, values: seq<real>)
    | OHLCSample(time: real, open: real, high: real, low: real, close: real)
    | VectorFieldSample(x: real, y: real, vx: real, vy: real)

  function SeqMin(s: seq<real>): (m: real)
    requires |s| > 0
    ensures m in s && forall k :: 0 <= k < |s| ==> m <= s[k]
  {
    if |s| == 1 then s[0]
    else
      var m := SeqMin(s[..|s| - 1]);
      assert forall k :: 0 <= k < |s| - 1 ==> s[..|s| - 1][k] == s[k];
      if s[|s| - 1] < m then s[|s| - 1] else m
  }

  function SeqMax(s: seq<real>): (m: real)
    requires |s| > 0
    ensures m in s && forall k :: 0 <= k < |s| ==> s[k] <= m
  {
    if |s| == 1 then s[0]
    else
      var m := SeqMax(s[..|s| - 1]);
      assert forall k :: 0 <= k < |s| - 1 ==> s[..|s| - 1][k] == s[k];
      if s[|s| - 1] > m then s[|s| - 1] else m
  }

  /** The rectangle a sample spans. Points, 3-D points, polar points and
    vector-field samples (whose arrows have no known length) give an empty
    rect at their position; an interval sample spans its interval
    horizontally at its value; a set sample spans its values vertically,
    and is invalid (height -1) when the set is empty; an OHLC sample spans
    its price interval horizontally at its time. */
  function SampleRect(s: Sample): (r: RectF)
    ensures s.PointSample? || s.Point3DSample? || s.VectorFieldSample? ==> r == RectF(s.x, s.y, 0.0, 0.0)
    ensures s.PolarSample? ==> r == RectF(s.azimuth, s.radius, 0.0, 0.0)
    ensures s.IntervalSample? ==> r.x == s.minValue && r.Right() == s.maxValue && r.y == s.value && r.height == 0.0
    ensures s.SetSample? && |s.values| == 0 ==> r.height < 0.0
    ensures s.SetSample? && |s.values| > 0 ==>
      (r.x == s.value && r.width == 0.0 && r.height >= 0.0 &&
       (forall k :: 0 <= k < |s.values| ==> r.y <= s.values[k] <= r.Bottom()) && r.y in s.values && r.Bottom() in s.values)
    ensures s.OHLCSample? ==>
      (r.y == s.time && r.height == 0.0 && r.width >= 0.0 &&
       r.x <= s.open && r.x <= s.high && r.x <= s.low && r.x <= s.close &&
       s.open <= r.Right() && s.high <= r.Right() && s.low <= r.Right() && s.close <= r.Right())
  {
    match s
    case PointSample(x, y) => RectF(x, y, 0.0, 0.0)
    case Point3DSample(x, y, _) => RectF(x, y, 0.0, 0.0)
    case PolarSample(a, rad) => RectF(a, rad, 0.0, 0.0)
    case IntervalSample(v, lo, hi) => RectF(lo, v, hi - lo, 0.0)
    case SetSample(v, vs) =>
      if |vs| == 0 then RectF(v, 0.0, 0.0, -1.0)
      else RectF(v, SeqMin(vs), 0.0, SeqMax(vs) - SeqMin(vs))
    case OHLCSample(t, o, h, l, c) =>
      var lo := MinR(MinR(o, h), MinR(l, c));
      var hi := MaxR(MaxR(o, h), MaxR(l, c));
      RectF(lo, t, hi - lo, 0.0)
    case VectorFieldSample(x, y, _, _) => RectF(x, y, 0.0, 0.0)
  }

  /** The loop of qwtBoundingRect for a set sample. */
  method SetSampleRect(value: real, values: seq<real>) returns (r: RectF)
    ensures r == SampleRect(SetSample(value, values))
  {
    if |values| == 0 {
      return RectF(value, 0.0, 0.0, -1.0);
    }
    var minY := values[0];
    var maxY := values[0];
    var i := 1;
    assert values[..1] == [values[0]];
    while i < |values|
      invariant 1 <= i <= |values|
      invariant minY == SeqMin(values[..i]) && maxY == SeqMax(values[..i])
    {
      assert values[..i + 1][..i] == values[..i];
      assert values[..i + 1][i] == values[i];
      assert SeqMin(values[..i + 1]) == if values[i] < SeqMin(values[..i]) then values[i] else SeqMin(values[..i]);
      assert SeqMax(values[..i + 1]) == if values[i] > SeqMax(values[..i]) then values[i] else SeqMax(values[..i]);
      if values[i] < minY {
        minY := values[i];
      }
      if values[i] > maxY {
        maxY := values[i];
      }
      i := i + 1;
    }
    assert values[..i] == values;
    r := RectF(value, minY, 0.0, maxY - minY);
    assert SampleRect(SetSample(value, values)) == RectF(value, SeqMin(values), 0.0, SeqMax(values) - SeqMin(values));
  }

  /** A sample rect qwtBoundingRectT takes into account. */
  predicate Usable(r: RectF)
  {
    r.width >= 0.0 && r.height >= 0.0
  }

  /** QRectF::setRight and setBottom keep the left and top edges. */
  function SetRight(r: RectF, x: real): RectF { RectF(r.x, r.y, x - r.x, r.height) }
  function SetBottom(r: RectF, y: real): RectF { RectF(r.x, r.y, r.width, y - r.y) }

  /** One accumulation step: the four edges moved out to cover r. */
  function Merge(b: RectF, r: RectF): (m: RectF)
    ensures m.x == MinR(b.x, r.x) && m.Right() == MaxR(b.Right(), r.Right())
    ensures m.y == MinR(b.y, r.y) && m.Bottom() == MaxR(b.Bottom(), r.Bottom())
  {
    var s1 := SetLeft(b, MinR(b.x, r.x));
    var s2 := SetRight(s1, MaxR(s1.Right(), r.Right()));
    var s3 := SetTop(s2, MinR(s2.y, r.y));
    SetBottom(s3, MaxR(s3.Bottom(), r.Bottom()))
  }

  /** The hull of the usable rects among rects[lo..hi), None when none is
    usable. */
  function Hull(rects: seq<RectF>, lo: nat, hi: nat): Option<RectF>
    requires lo <= hi <= |rects|
    decreases hi
  {
    if hi == lo then None
    else
      var pre := Hull(rects, lo, hi - 1);
      var r := rects[hi - 1];
      if !Usable(r) then pre
      else if pre.None? then Some(r)
      else Some(Merge(pre.value, r))
  }

  /** The hull covers every usable rect of the range, each of its edges
    is an edge of one of them, and it is itself usable. */
  lemma {:induction false} HullCovers(rects: seq<RectF>, lo: nat, hi: nat)
    requires lo <= hi <= |rects|
    ensures Hull(rects, lo, hi).None? <==> forall k :: lo <= k < hi ==> !Usable(rects[k])
    ensures Hull(rects, lo, hi).Some? ==>
      var h := Hull(rects, lo, hi).value;
      Usable(h) &&
      (forall k :: lo <= k < hi && Usable(rects[k]) ==>
        h.x <= rects[k].x && rects[k].Right() <= h.Right() && h.y <= rects[k].y && rects[k].Bottom() <= h.Bottom()) &&
      (exists k :: lo <= k < hi && Usable(rects[k]) && rects[k].x == h.x) &&
      (exists k :: lo <= k < hi && Usable(rects[k]) && rects[k].Right() == h.Right()) &&
      (exists k :: lo <= k < hi && Usable(rects[k]) && rects[k].y == h.y) &&
      (exists k :: lo <= k < hi && Usable(rects[k]) && rects[k].Bottom() == h.Bottom())
    decreases hi
  {
    if hi > lo {
      HullCovers(rects, lo, hi - 1);
    }
  }

  /** The invalid rect qwtBoundingRectT starts from. */
  const InvalidRect := RectF(1.0, 1.0, -2.0, -2.0)

  /** The last index qwtBoundingRectT scans: to, or the last sample when
    to is 0. */
  function LastIndex(size: nat, to: nat): int
  {
    if to == 0 then size - 1 else to
  }

  /** The index range qwtBoundingRectT reads lies inside the series: a
    non-empty series when to is 0, and to within it when it scans. */
  predicate RangeInSeries(size: nat, from: nat, to: nat)
  {
    (to == 0 ==> size > 0) && (from <= LastIndex(size, to) ==> LastIndex(size, to) < size)
  }

  /** qwtBoundingRectT's result on the sample rects. */
  function BoundingRectOf(rects: seq<RectF>, from: nat, to: nat): RectF
    requires RangeInSeries(|rects|, from, to)
  {
    var last := LastIndex(|rects|, to);
    if last < from then InvalidRect
    else
      var h := Hull(rects, from, last + 1);
      if h.None? then InvalidRect else h.value
  }

  /** qwtBoundingRectT: to before from, or no usable sample, gives the
    invalid rect (1, 1, -2, -2); otherwise the hull of the usable sample
    rects of [from, to]. */
  method BoundingRectT(samples: seq<Sample>, from: nat, to: nat) returns (bounding: RectF)
    requires RangeInSeries(|samples|, from, to)
    ensures var rects := seq(|samples|, k requires 0 <= k < |samples| => SampleRect(samples[k]));
      bounding == BoundingRectOf(rects, from, to)
  {
    ghost var rects := seq(|samples|, k requires 0 <= k < |samples| => SampleRect(samples[k]));
    bounding := InvalidRect;
    var last: int := if to == 0 then |samples| - 1 else to;
    if last < from {
      return;
    }
    var i := from;
    var found := false;
    while i <= last && !found
      invariant from <= i <= last + 1
      invariant !found ==> Hull(rects, from, i).None? && bounding == InvalidRect
      invariant found ==> Hull(rects, from, i) == Some(bounding)
      decreases last + 1 - i, if found then 0 else 1
    {
      var rect := SampleRect(samples[i]);
      assert rect == rects[i];
      if rect.width >= 0.0 && rect.height >= 0.0 {
        bounding := rect;
        found := true;
      }
      i := i + 1;
    }
    while i <= last
      invariant from <= i <= last + 1
      invariant found ==> Hull(rects, from, i) == Some(bounding)
      invariant !found ==> i == last + 1 && Hull(rects, from, i).None? && bounding == InvalidRect
    {
      var rect := SampleRect(samples[i]);
      assert rect == rects[i];
      if rect.width >= 0.0 && rect.height >= 0.0 {
        bounding := Merge(bounding, rect);
      }
      i := i + 1;
    }
  }

  /** A point series with its cached bounding rect (invalid until
    computed). */
  class QwtPointSeriesData {
    const samples: seq<(real, real)>
    var cachedBoundingRect: RectF
    /** How often the rect was computed. */
    var computeCount: nat

    constructor(s: seq<(real, real)>)
      ensures samples == s && cachedBoundingRect.width < 0.0 && computeCount == 0
    {
      samples := s;
      cachedBoundingRect := RectF(0.0, 0.0, -1.0, -1.0);
      computeCount := 0;
    }

    function PointRects(): seq<RectF>
      reads this
    {
      seq(|samples|, k requires 0 <= k < |samples| => SampleRect(PointSample(samples[k].0, samples[k].1)))
    }

    /** boundingRect: computed over the whole series while the cached rect
      is invalid (negative width), and returned from the cache after. */
    method BoundingRect() returns (r: RectF)
      requires |samples| > 0
      modifies this
      ensures old(cachedBoundingRect).width >= 0.0 ==>
        r == old(cachedBoundingRect) && cachedBoundingRect == r && computeCount == old(computeCount)
      ensures old(cachedBoundingRect).width < 0.0 ==>
        r == BoundingRectOf(PointRects(), 0, 0) && cachedBoundingRect == r && computeCount == old(computeCount) + 1
    {
      if cachedBoundingRect.width < 0.0 {
        var pts := seq(|samples|, k requires 0 <= k < |samples| => PointSample(samples[k].0, samples[k].1));
        assert seq(|pts|, k requires 0 <= k < |pts| => SampleRect(pts[k])) == PointRects();
        cachedBoundingRect := BoundingRectT(pts, 0, 0);
        computeCount := computeCount + 1;
      }
      r := cachedBoundingRect;
    }
  }

  /** Every point rect is usable, so a non-empty point series has a
    usable bounding rect: once computed, it is never computed again. */
  lemma {:induction false} PointSeriesRectUsable(d: QwtPointSeriesData)
    requires |d.samples| > 0
    ensures Usable(BoundingRectOf(d.PointRects(), 0, 0))
    ensures BoundingRectOf(d.PointRects(), 0, 0).width >= 0.0
  {
    var rects := d.PointRects();
    HullCovers(rects, 0, |rects|);
    assert Usable(rects[0]);
  }
}
