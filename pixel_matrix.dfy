/** QwtPixelMatrix: a bit field over the pixels of a rectangle, used to filter
    duplicate points. The QBitArray base is an array of booleans. */
module PixelMatrix {
  import opened Types

  /** QwtPixelMatrix::index for the rectangle r: -1 outside, dy * width + dx inside. */
  function Index(r: Rect, x: int, y: int): (idx: int)
    ensures idx == -1 <==> !(0 <= x - r.left < r.width && 0 <= y - r.top < r.height)
    ensures idx != -1 ==> 0 <= idx < r.width * r.height
  {
    var dx := x - r.left;
    if dx < 0 || dx >= r.width then -1
    else
      var dy := y - r.top;
      if dy < 0 || dy >= r.height then -1
      else
        RowMajorBound(dx, dy, r.width, r.height);
        dy * r.width + dx
  }

  lemma RowMajorBound(dx: int, dy: int, w: int, h: int)
    requires 0 <= dx < w && 0 <= dy < h
    ensures 0 <= dy * w + dx < w * h
  {
    assert dy * w <= (h - 1) * w;
  }

  /** Two points inside the rectangle have the same index only if they are the
      same point. */
  lemma IndexInjective(r: Rect, x1: int, y1: int, x2: int, y2: int)
    requires Index(r, x1, y1) != -1 && Index(r, x1, y1) == Index(r, x2, y2)
    ensures x1 == x2 && y1 == y2
  {
    RowMajorUnique(y1 - r.top, x1 - r.left, y2 - r.top, x2 - r.left, r.width);
  }

  /** Quotient and remainder of a row-major index are unique. */
  lemma RowMajorUnique(q1: int, r1: int, q2: int, r2: int, w: int)
    requires 0 <= r1 < w && 0 <= r2 < w
    requires q1 * w + r1 == q2 * w + r2
    ensures q1 == q2 && r1 == r2
  {
    assert (q2 - q1) * w == r1 - r2;
    MulSign(q2 - q1, w);
  }

  lemma MulSign(k: int, w: int)
    requires w > 0
    ensures k >= 1 ==> k * w >= w
    ensures k <= -1 ==> k * w <= -w
  {
  }

  /** Number of bits for a rectangle: qMax(width * height, 0). */
  function BitCount(r: Rect): nat {
    if r.width * r.height < 0 then 0 else r.width * r.height
  }

  class QwtPixelMatrix {
    var rect: Rect
    var bits: array<bool>

    ghost predicate Valid()
      reads this
    {
      bits.Length == BitCount(rect)
    }

    /** QwtPixelMatrix(rect): max(w*h, 0) cleared bits over rect. */
    constructor (r: Rect)
      ensures Valid() && rect == r && fresh(bits)
      ensures forall i :: 0 <= i < bits.Length ==> !bits[i]
    {
      rect := r;
      bits := new bool[BitCount(r)](_ => false);
    }

    /** QwtPixelMatrix::rect. */
    function Rect(): (r: Rect)
      reads this
    {
      rect
    }

    /** QwtPixelMatrix::index. */
    function IndexOf(x: int, y: int): (idx: int)
      reads this
      requires Valid()
      ensures idx == -1 || 0 <= idx < bits.Length
    {
      Index(rect, x, y)
    }

    /** QwtPixelMatrix::testPixel: true outside the rectangle, the stored bit inside. */
    function TestPixel(x: int, y: int): (b: bool)
      reads this, bits
      requires Valid()
      ensures Index(rect, x, y) == -1 ==> b
      ensures Index(rect, x, y) != -1 ==> b == bits[Index(rect, x, y)]
    {
      var idx := IndexOf(x, y);
      if idx >= 0 then bits[idx] else true
    }

    /** QwtPixelMatrix::setRect: adopts the new rectangle (re-sizing the bits only
        when it differs from the old one) and clears every bit. */
    method SetRect(r: Rect)
      requires Valid()
      modifies this, bits
      ensures Valid() && rect == r
      ensures old(rect) == r ==> bits == old(bits)
      ensures old(rect) != r ==> fresh(bits)
      ensures forall i :: 0 <= i < bits.Length ==> !bits[i]
    {
      if r != rect {
        rect := r;
        bits := new bool[BitCount(r)];
      }
      var b := bits;
      var i := 0;
      while i < b.Length
        invariant 0 <= i <= b.Length
        invariant forall k :: 0 <= k < i ==> !b[k]
        modifies b
      {
        b[i] := false;
        i := i + 1;
      }
    }

    /** QwtPixelMatrix::testAndSetPixel: outside the rectangle, true and no
        change; inside, the previous bit, with that bit set to on and every other
        bit unchanged. */
    method TestAndSetPixel(x: int, y: int, on: bool) returns (before: bool)
      requires Valid()
      modifies bits
      ensures Valid()
      ensures Index(rect, x, y) == -1 ==> before && bits[..] == old(bits[..])
      ensures Index(rect, x, y) != -1 ==>
        before == old(bits[Index(rect, x, y)]) &&
        bits[..] == old(bits[..])[Index(rect, x, y) := on]
    {
      var idx := IndexOf(x, y);
      if idx < 0 {
        return true;
      }
      before := bits[idx];
      bits[idx] := on;
    }
  }

  /** The duplicate filter: setting a pixel and testing it again reports it as
      already set. */
  method DuplicateFilter(m: QwtPixelMatrix, x: int, y: int) returns (first: bool, second: bool)
    requires m.Valid()
    modifies m.bits
    ensures second
    ensures m.Valid() && m.TestPixel(x, y)
  {
    first := m.TestAndSetPixel(x, y, true);
    second := m.TestAndSetPixel(x, y, true);
  }
}
