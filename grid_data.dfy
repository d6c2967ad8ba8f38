/** QwtGridData<double>: a 2-D table over an x axis and a y axis, column-major
    (data[ix][iy] belongs to xAxis[ix], yAxis[iy]). Values are reals; the
    interpolating resamplers are not part of this model. */
module GridData {
  import opened Types

  datatype ResampleMode = NearestNeighbour | BilinearInterpolation | BicubicInterpolation

  /** std::numeric_limits<double>::max(); lowest() is its negation. */
  const DoubleMax: real := 179769313486231570814527423731704356798070567525844996598917476803157260780028538760589558632766878171540458953514382464234321326889464182768467546703537516986049910576551282076245490090389328944075868508455133942304583236903222948165808559332123348274797826204144723168738177180919299881250404026184124858368.0

  predicate Sorted(s: seq<real>) {
    forall i, j :: 0 <= i < j < |s| ==> s[i] <= s[j]
  }

  /** Every column has as many entries as the y axis. */
  predicate ColumnsMatch(data: seq<seq<real>>, n: nat) {
    forall c :: 0 <= c < |data| ==> |data[c]| == n
  }

  /** The shape checks of validate(): nothing empty, one column per x value,
      one row per y value. */
  predicate ShapeOk(xAxis: seq<real>, yAxis: seq<real>, data: seq<seq<real>>) {
    |xAxis| > 0 && |yAxis| > 0 && |data| > 0 && |data| == |xAxis| && ColumnsMatch(data, |yAxis|)
  }

  /** QwtGridData::valid: the shape checks and both axes sorted. */
  predicate GridValid(xAxis: seq<real>, yAxis: seq<real>, data: seq<seq<real>>) {
    ShapeOk(xAxis, yAxis, data) && Sorted(xAxis) && Sorted(yAxis)
  }

  /** Inserting into a sorted sequence (the step of the axis sort). */
  function Insert(x: real, s: seq<real>): (r: seq<real>)
    requires Sorted(s)
    ensures Sorted(r) && multiset(r) == multiset(s) + multiset{x} && |r| == |s| + 1
  {
    if |s| == 0 then [x]
    else if x <= s[0] then [x] + s
    else
      var t := Insert(x, s[1..]);
      assert s == [s[0]] + s[1..];
      HeadBelowAll(s[0], s[1..], x, t);
      SortedCons(s[0], t);
      [s[0]] + t
  }

  /** The head of a sorted sequence is below every entry of its tail with a
      larger value inserted. */
  lemma HeadBelowAll(h: real, tail: seq<real>, x: real, t: seq<real>)
    requires Sorted([h] + tail) && h < x
    requires multiset(t) == multiset(tail) + multiset{x}
    ensures forall k :: 0 <= k < |t| ==> h <= t[k]
  {
    forall k | 0 <= k < |t| ensures h <= t[k] {
      assert t[k] in multiset(t);
      if t[k] != x {
        assert t[k] in multiset(tail);
        var j :| 0 <= j < |tail| && tail[j] == t[k];
        assert ([h] + tail)[0] == h && ([h] + tail)[j + 1] == t[k];
      }
    }
  }

  /** A value below every entry of a sorted sequence can be put in front. */
  lemma SortedCons(h: real, t: seq<real>)
    requires Sorted(t) && forall k :: 0 <= k < |t| ==> h <= t[k]
    ensures Sorted([h] + t)
  {
    forall i, j | 0 <= i < j < |[h] + t| ensures ([h] + t)[i] <= ([h] + t)[j] {
      if i > 0 {
        assert ([h] + t)[i] == t[i - 1];
      }
      assert ([h] + t)[j] == t[j - 1];
    }
  }

  /** std::sort on an axis: sorted, and a permutation of the input. */
  function Sort(s: seq<real>): (r: seq<real>)
    ensures Sorted(r) && multiset(r) == multiset(s) && |r| == |s|
  {
    if |s| == 0 then []
    else
      assert s == [s[0]] + s[1..];
      Insert(s[0], Sort(s[1..]))
  }

  /** std::lower_bound: the first position whose value is not below val. */
  function LowerBound(arr: seq<real>, val: real): (i: nat)
    ensures i <= |arr|
    ensures forall k :: 0 <= k < i ==> arr[k] < val
    ensures i < |arr| ==> arr[i] >= val
  {
    if |arr| == 0 then 0
    else if arr[0] >= val then 0
    else 1 + LowerBound(arr[1..], val)
  }

  /** findClosestIndex: 0 at or below the first value, the last index beyond
      the last value, otherwise the nearer of the two neighbours of the lower
      bound, the lower one on a tie. */
  function FindClosestIndex(arr: seq<real>, val: real): (r: nat)
    ensures |arr| > 0 ==> r < |arr|
    ensures |arr| > 0 && val <= arr[0] ==> r == 0
    ensures |arr| > 0 && val > arr[|arr| - 1] && Sorted(arr) ==> r == |arr| - 1
    ensures 0 < r < |arr| ==> arr[r - 1] < val
    ensures var it := LowerBound(arr, val);
      0 < it < |arr| ==> (r == it || r == it - 1) && (r == it <==> Abs(arr[it] - val) < Abs(arr[it - 1] - val))
  {
    var it := LowerBound(arr, val);
    if it == 0 then 0
    else if it == |arr| then |arr| - 1
    else if Abs(arr[it] - val) < Abs(arr[it - 1] - val) then it else it - 1
  }

  /** On a sorted axis the closest index is a nearest entry: no entry is
      strictly nearer to val. */
  lemma {:induction false} ClosestIsNearest(arr: seq<real>, val: real, j: nat)
    requires Sorted(arr) && j < |arr|
    ensures Abs(arr[FindClosestIndex(arr, val)] - val) <= Abs(arr[j] - val)
  {
    var it := LowerBound(arr, val);
    if 0 < it < |arr| {
      if j >= it { assert arr[j] >= arr[it]; } else { assert arr[j] <= arr[it - 1]; }
    } else if it == |arr| {
      assert arr[j] <= arr[|arr| - 1];
    } else {
      assert arr[j] >= arr[0];
    }
  }

  /** findLowerIndex: 0 when val is at or below the first entry, else the last
      position holding a value below val. */
  function FindLowerIndex(arr: seq<real>, val: real): (r: nat)
    ensures |arr| > 0 ==> r < |arr|
    ensures |arr| > 0 && val <= arr[0] ==> r == 0
    ensures |arr| > 0 && val > arr[0] ==> arr[r] < val && (r + 1 == |arr| || arr[r + 1] >= val)
  {
    var it := LowerBound(arr, val);
    if it == 0 then 0 else it - 1
  }

  /** QwtGridData::clamp: lo below, hi above, the value itself otherwise. */
  function Clamp(value: real, lo: real, hi: real): (r: real)
    ensures value < lo ==> r == lo
    ensures lo <= value && hi < value ==> r == hi
    ensures lo <= value <= hi ==> r == value
    ensures lo <= hi ==> lo <= r <= hi
  {
    if value < lo then lo else if hi < value then hi else value
  }

  /** Every entry of the table lies within the range of a double. */
  predicate FiniteEntries(data: seq<seq<real>>) {
    forall c, k :: 0 <= c < |data| && 0 <= k < |data[c]| ==> -DoubleMax <= data[c][k] <= DoubleMax
  }

  /** Some column among the first c holds an entry. */
  predicate NonEmptyPrefix(data: seq<seq<real>>, c: int) {
    exists c' :: 0 <= c' < c && c' < |data| && |data[c']| > 0
  }

  /** v is an entry of one of the first c columns. */
  predicate InPrefix(data: seq<seq<real>>, c: int, v: real) {
    exists c' :: 0 <= c' < c && c' < |data| && v in data[c']
  }

  /** The loop of findValueRange over all entries, column by column: the result
      bounds every entry, and on a non-empty table both bounds are entries;
      on a table without entries the start values remain. */
  method ValueRange(data: seq<seq<real>>) returns (lo: real, hi: real)
    requires FiniteEntries(data)
    ensures forall c, k :: 0 <= c < |data| && 0 <= k < |data[c]| ==> lo <= data[c][k] <= hi
    ensures NonEmptyPrefix(data, |data|) ==> InPrefix(data, |data|, lo) && InPrefix(data, |data|, hi)
    ensures !NonEmptyPrefix(data, |data|) ==> lo == DoubleMax && hi == -DoubleMax
  {
    lo, hi := DoubleMax, -DoubleMax;
    ghost var seen := false;
    for c := 0 to |data|
      invariant forall c', k :: 0 <= c' < c && 0 <= k < |data[c']| ==> lo <= data[c'][k] <= hi
      invariant seen <==> NonEmptyPrefix(data, c)
      invariant seen ==> InPrefix(data, c, lo) && InPrefix(data, c, hi)
      invariant !seen ==> lo == DoubleMax && hi == -DoubleMax
    {
      for k := 0 to |data[c]|
        invariant forall c', k' :: 0 <= c' < c && 0 <= k' < |data[c']| ==> lo <= data[c'][k'] <= hi
        invariant forall k' :: 0 <= k' < k ==> lo <= data[c][k'] <= hi
        invariant seen <==> NonEmptyPrefix(data, c) || k > 0
        invariant seen ==> InPrefix(data, c, lo) || lo in data[c][..k]
        invariant seen ==> InPrefix(data, c, hi) || hi in data[c][..k]
        invariant !seen ==> lo == DoubleMax && hi == -DoubleMax
      {
        var v := data[c][k];
        if v < lo { lo := v; }
        if hi < v { hi := v; }
        seen := true;
      }
      assert data[c][..|data[c]|] == data[c];
      if |data[c]| > 0 {
        assert NonEmptyPrefix(data, c + 1);
      }
      if NonEmptyPrefix(data, c + 1) {
        assert InPrefix(data, c + 1, lo) && InPrefix(data, c + 1, hi);
      }
    }
  }

  class QwtGridData {
    var xAxis: seq<real>
    var yAxis: seq<real>
    var data: seq<seq<real>>
    var mode: ResampleMode
    var xMin: real
    var xMax: real
    var yMin: real
    var yMax: real
    var dataMin: real
    var dataMax: real

    /** QwtGridData(): empty table, nearest-neighbour mode, every bound 0. */
    constructor ()
      ensures xAxis == [] && yAxis == [] && data == [] && mode == NearestNeighbour
      ensures xMin == 0.0 && xMax == 0.0 && yMin == 0.0 && yMax == 0.0
      ensures dataMin == 0.0 && dataMax == 0.0
    {
      xAxis, yAxis, data := [], [], [];
      mode := NearestNeighbour;
      xMin, xMax, yMin, yMax, dataMin, dataMax := 0.0, 0.0, 0.0, 0.0, 0.0, 0.0;
    }

    /** QwtGridData::valid. */
    function Valid(): (b: bool)
      reads this
      ensures b <==> GridValid(xAxis, yAxis, data)
    {
      if |xAxis| == 0 || |yAxis| == 0 || |data| == 0 then false
      else if |xAxis| != |data| then false
      else if exists c :: 0 <= c < |data| && |data[c]| != |yAxis| then false
      else Sorted(xAxis) && Sorted(yAxis)
    }

    /** QwtGridData::validate: false where the source throws (empty input or a
        shape mismatch), with nothing changed; otherwise each unsorted axis is
        sorted in place, and the data columns keep their order. */
    method Validate() returns (ok: bool)
      modifies this
      ensures ok <==> ShapeOk(old(xAxis), old(yAxis), old(data))
      ensures !ok ==> xAxis == old(xAxis) && yAxis == old(yAxis)
      ensures ok ==> GridValid(xAxis, yAxis, data)
      ensures ok ==> multiset(xAxis) == multiset(old(xAxis)) && multiset(yAxis) == multiset(old(yAxis))
      ensures ok && Sorted(old(xAxis)) ==> xAxis == old(xAxis)
      ensures ok && Sorted(old(yAxis)) ==> yAxis == old(yAxis)
      ensures data == old(data) && mode == old(mode)
      ensures xMin == old(xMin) && xMax == old(xMax) && yMin == old(yMin) && yMax == old(yMax)
      ensures dataMin == old(dataMin) && dataMax == old(dataMax)
    {
      if |xAxis| == 0 || |yAxis| == 0 || |data| == 0 {
        return false;
      }
      if |data| != |xAxis| {
        return false;
      }
      for c := 0 to |data|
        invariant forall c' :: 0 <= c' < c ==> |data[c']| == |yAxis|
      {
        if |data[c]| != |yAxis| {
          return false;
        }
      }
      if !Sorted(xAxis) {
        xAxis := Sort(xAxis);
      }
      if !Sorted(yAxis) {
        yAxis := Sort(yAxis);
      }
      ok := true;
    }

    /** findValueRange: stores the bounds of the table. */
    method FindValueRange()
      requires FiniteEntries(data)
      modifies this
      ensures forall c, k :: 0 <= c < |data| && 0 <= k < |data[c]| ==> dataMin <= data[c][k] <= dataMax
      ensures NonEmptyPrefix(data, |data|) ==> InPrefix(data, |data|, dataMin) && InPrefix(data, |data|, dataMax)
      ensures xAxis == old(xAxis) && yAxis == old(yAxis) && data == old(data) && mode == old(mode)
      ensures xMin == old(xMin) && xMax == old(xMax) && yMin == old(yMin) && yMax == old(yMax)
    {
      dataMin, dataMax := ValueRange(data);
    }

    /** QwtGridData::setValue as written: stores the table, validates it (false
        where the source throws, the new containers then already stored), finds
        the value range, and takes the axis bounds from the front and back of
        the containers the caller passed in, not from the sorted axes. */
    method SetValue(x: seq<real>, y: seq<real>, d: seq<seq<real>>) returns (ok: bool)
      requires FiniteEntries(d)
      modifies this
      ensures ok <==> ShapeOk(x, y, d)
      ensures !ok ==> xAxis == x && yAxis == y && data == d
      ensures ok ==> GridValid(xAxis, yAxis, data) && data == d
      ensures ok ==> multiset(xAxis) == multiset(x) && multiset(yAxis) == multiset(y)
      ensures ok ==> xMin == x[0] && xMax == x[|x| - 1] && yMin == y[0] && yMax == y[|y| - 1]
      ensures ok ==> forall c, k :: 0 <= c < |d| && 0 <= k < |d[c]| ==> dataMin <= d[c][k] <= dataMax
      ensures mode == old(mode)
    {
      xAxis, yAxis, data := x, y, d;
      ok := Validate();
      if !ok {
        return;
      }
      FindValueRange();
      xMin, xMax := x[0], x[|x| - 1];
      yMin, yMax := y[0], y[|y| - 1];
    }

    /** setValue with the axis bounds taken from the validated (sorted) axes, so
        that xMin()/xMax()/yMin()/yMax() are the least and greatest axis values. */
    method SetValueSorted(x: seq<real>, y: seq<real>, d: seq<seq<real>>) returns (ok: bool)
      requires FiniteEntries(d)
      modifies this
      ensures ok <==> ShapeOk(x, y, d)
      ensures ok ==> GridValid(xAxis, yAxis, data) && data == d
      ensures ok ==> xMin in x && xMax in x && yMin in y && yMax in y
      ensures ok ==> forall i :: 0 <= i < |x| ==> xMin <= x[i] <= xMax
      ensures ok ==> forall i :: 0 <= i < |y| ==> yMin <= y[i] <= yMax
      ensures mode == old(mode)
    {
      xAxis, yAxis, data := x, y, d;
      ok := Validate();
      if !ok {
        return;
      }
      FindValueRange();
      xMin, xMax := xAxis[0], xAxis[|xAxis| - 1];
      yMin, yMax := yAxis[0], yAxis[|yAxis| - 1];
      SortedBounds(xAxis, x);
      SortedBounds(yAxis, y);
    }

    /** QwtGridData::setResampleMode. */
    method SetResampleMode(m: ResampleMode)
      modifies this`mode
      ensures mode == m
    {
      mode := m;
    }

    /** QwtGridData::atValue: data.at(ix).at(iy); None where at() throws. */
    function AtValue(ix: int, iy: int): (r: Option<real>)
      reads this
      ensures r.Some? <==> 0 <= ix < |data| && 0 <= iy < |data[ix]|
      ensures r.Some? ==> r.value == data[ix][iy]
    {
      if 0 <= ix < |data| && 0 <= iy < |data[ix]| then Some(data[ix][iy]) else None
    }

    /** nearestNeighbour: the entry at the closest x and the closest y index. */
    function NearestValue(x: real, y: real): (v: real)
      reads this
      requires GridValid(xAxis, yAxis, data)
      ensures forall i :: 0 <= i < |xAxis| ==>
        Abs(xAxis[FindClosestIndex(xAxis, x)] - x) <= Abs(xAxis[i] - x)
      ensures forall j :: 0 <= j < |yAxis| ==>
        Abs(yAxis[FindClosestIndex(yAxis, y)] - y) <= Abs(yAxis[j] - y)
      ensures v == data[FindClosestIndex(xAxis, x)][FindClosestIndex(yAxis, y)]
    {
      forall i | 0 <= i < |xAxis| ensures Abs(xAxis[FindClosestIndex(xAxis, x)] - x) <= Abs(xAxis[i] - x) {
        ClosestIsNearest(xAxis, x, i);
      }
      forall j | 0 <= j < |yAxis| ensures Abs(yAxis[FindClosestIndex(yAxis, y)] - y) <= Abs(yAxis[j] - y) {
        ClosestIsNearest(yAxis, y, j);
      }
      data[FindClosestIndex(xAxis, x)][FindClosestIndex(yAxis, y)]
    }
  }

  /** The first and last entries of a sorted permutation of s are the least and
      greatest entries of s. */
  lemma SortedBounds(sorted: seq<real>, s: seq<real>)
    requires Sorted(sorted) && multiset(sorted) == multiset(s) && |s| > 0
    ensures sorted[0] in s && sorted[|sorted| - 1] in s
    ensures forall i :: 0 <= i < |s| ==> sorted[0] <= s[i] <= sorted[|sorted| - 1]
  {
    assert |sorted| == |s| by {
      assert |multiset(sorted)| == |multiset(s)|;
    }
    assert sorted[0] in multiset(sorted);
    assert sorted[|sorted| - 1] in multiset(sorted);
    forall i | 0 <= i < |s| ensures sorted[0] <= s[i] <= sorted[|sorted| - 1] {
      assert s[i] in multiset(s);
      assert s[i] in multiset(sorted);
      var j :| 0 <= j < |sorted| && sorted[j] == s[i];
    }
  }

  /** With an unsorted x axis the bound stored by setValue is not the least
      axis value: for xAxis = [1, 0] it reports xMin = 1 although the validated
      axis starts at 0. */
  method UnsortedAxisBoundExample() returns (g: QwtGridData, ok: bool)
    ensures ok && g.xMin == 1.0 && g.xAxis == [0.0, 1.0] && g.xMin > g.xAxis[0]
  {
    g := new QwtGridData();
    ok := g.SetValue([1.0, 0.0], [0.0], [[5.0], [6.0]]);
    assert !Sorted([1.0, 0.0]);
    assert multiset(g.xAxis) == multiset{1.0, 0.0};
    SortedPair(g.xAxis, 0.0, 1.0);
  }

  lemma SortedPair(s: seq<real>, a: real, b: real)
    requires Sorted(s) && multiset(s) == multiset{b, a} && a < b
    ensures s == [a, b]
  {
    assert |s| == 2 by { assert |multiset(s)| == 2; }
    assert s[0] in multiset(s) && s[1] in multiset(s);
    assert multiset(s) == multiset{s[0], s[1]} by { assert s == [s[0], s[1]]; }
  }
}
