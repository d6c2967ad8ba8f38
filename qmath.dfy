/** The integer and real helpers of qwt_math.h. Doubles are modelled as reals. */
module QwtMath {
  import opened Types

  /** qwtVerifyRange: clamps the index range [i1, i2] into [0, size - 1], orders it,
      and gives the number of indices it covers; with size < 1 the indices are
      left alone and 0 is returned. */
  method VerifyRange(size: int, i1: int, i2: int) returns (n: int, j1: int, j2: int)
    ensures size < 1 ==> n == 0 && j1 == i1 && j2 == i2
    ensures size >= 1 ==> 0 <= j1 <= j2 <= size - 1
    ensures size >= 1 ==> n == j2 - j1 + 1 && 1 <= n <= size
    ensures size >= 1 ==> {j1, j2} == {Clamp(i1, 0, size - 1), Clamp(i2, 0, size - 1)}
  {
    j1, j2 := i1, i2;
    if size < 1 {
      return 0, j1, j2;
    }
    j1 := QBound(0, j1, size - 1);
    j2 := QBound(0, j2, size - 1);
    if j1 > j2 {
      j1, j2 := j2, j1;
    }
    n := j2 - j1 + 1;
  }

  /** qBound(min, v, max) = qMax(min, qMin(max, v)). */
  function QBound(lo: int, v: int, hi: int): int {
    Max(lo, Min(hi, v))
  }

  /** The value clamped into [lo, hi]: lo below, hi above, itself between. */
  function Clamp(v: int, lo: int, hi: int): int {
    if v < lo then lo else if v > hi then hi else v
  }

  lemma QBoundIsClamp(lo: int, v: int, hi: int)
    requires lo <= hi
    ensures QBound(lo, v, hi) == Clamp(v, lo, hi)
    ensures lo <= QBound(lo, v, hi) <= hi
  {
  }

  /** qwtFuzzyCompare: 0 when the values are within |1e-6 * intervalSize| of each
      other, -1 when value2 is larger by more, 1 when value1 is larger by more. */
  function FuzzyCompare(value1: real, value2: real, intervalSize: real): (r: int)
    ensures r in {-1, 0, 1}
    ensures r == 0 <==> Abs(value1 - value2) <= Abs(intervalSize / 1000000.0)
    ensures r == -1 <==> value2 - value1 > Abs(intervalSize / 1000000.0)
    ensures r == 1 <==> value1 - value2 > Abs(intervalSize / 1000000.0)
  {
    var eps := Abs(1.0 / 1000000.0 * intervalSize);
    if value2 - value1 > eps then -1
    else if value1 - value2 > eps then 1
    else 0
  }

  /** Swapping the compared values negates the result. */
  lemma FuzzyCompareAntisymmetric(v1: real, v2: real, size: real)
    ensures FuzzyCompare(v2, v1, size) == -FuzzyCompare(v1, v2, size)
  {
  }

  /** qwtSign. */
  function Sign(x: real): (r: int)
    ensures r == 1 <==> x > 0.0
    ensures r == -1 <==> x < 0.0
    ensures r == 0 <==> x == 0.0
  {
    if x > 0.0 then 1 else if x < 0.0 then -1 else 0
  }

  /** qwtMinF: one of the arguments, the smaller. */
  function MinF(a: real, b: real): (r: real)
    ensures r == a || r == b
    ensures r <= a && r <= b
  {
    if a < b then a else b
  }

  /** qwtMaxF: one of the arguments, the larger. */
  function MaxF(a: real, b: real): (r: real)
    ensures r == a || r == b
    ensures r >= a && r >= b
  {
    if a < b then b else a
  }

  /** qwtCubicPolynomial, evaluated in Horner form. */
  function CubicPolynomial(x: real, a: real, b: real, c: real, d: real): real {
    ((a * x + b) * x + c) * x + d
  }

  /** Horner evaluation equals the expanded polynomial a*x^3 + b*x^2 + c*x + d. */
  lemma CubicPolynomialExpanded(x: real, a: real, b: real, c: real, d: real)
    ensures CubicPolynomial(x, a, b, c, d) == a * (x * x * x) + b * (x * x) + c * x + d
  {
    calc {
      CubicPolynomial(x, a, b, c, d);
      ((a * x + b) * x + c) * x + d;
      { assert (a * x + b) * x == a * (x * x) + b * x; }
      (a * (x * x) + b * x + c) * x + d;
      { assert (a * (x * x) + b * x + c) * x == a * (x * x) * x + b * x * x + c * x; }
      a * (x * x) * x + b * x * x + c * x + d;
    }
  }
}
