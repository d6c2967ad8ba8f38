/** Cyclic selection over a sequence (qwtSelectNextIterator). A position is an
    index into the sequence; the value |s| stands for the end iterator. */
module Algorithm {

  /** std::find: the first position holding x, or |s| when x is absent. */
  function Find<T(==)>(s: seq<T>, x: T): (i: nat)
    ensures i <= |s|
    ensures i < |s| ==> s[i] == x
    ensures forall j :: 0 <= j < i ==> s[j] != x
    ensures i == |s| <==> x !in s
  {
    if |s| == 0 then 0
    else if s[0] == x then 0
    else 1 + Find(s[1..], x)
  }

  /** The position the search starts from: the first occurrence of current,
      or the beginning when current is absent. */
  function StartPos<T(==)>(s: seq<T>, current: T): (i: nat)
    requires |s| > 0
    ensures i < |s|
    ensures current in s ==> s[i] == current && forall j :: 0 <= j < i ==> s[j] != current
    ensures current !in s ==> i == 0
  {
    var it := Find(s, current);
    if it == |s| then 0 else it
  }

  /** qwtSelectNextIterator: the empty range gives end (= |s|); otherwise one step
      forward or backward from the start position, wrapping around. */
  function SelectNext<T(==)>(s: seq<T>, current: T, forward: bool): (r: nat)
    ensures |s| == 0 ==> r == 0
    ensures |s| > 0 ==> r < |s|
    ensures |s| > 0 && forward ==>
      r == (if StartPos(s, current) == |s| - 1 then 0 else StartPos(s, current) + 1)
    ensures |s| > 0 && !forward ==>
      r == (if StartPos(s, current) == 0 then |s| - 1 else StartPos(s, current) - 1)
  {
    if |s| == 0 then |s|
    else
      var it := StartPos(s, current);
      if forward then
        var next := it + 1;
        if next == |s| then 0 else next
      else
        if it != 0 then it - 1 else |s| - 1
  }

  /** Every element occurs once. */
  predicate Distinct<T(==)>(s: seq<T>) {
    forall i, j :: 0 <= i < j < |s| ==> s[i] != s[j]
  }

  lemma DistinctAt<T>(s: seq<T>, a: nat, b: nat)
    requires Distinct(s) && a < |s| && b < |s| && s[a] == s[b]
    ensures a == b
  {
  }

  /** On a sequence without repeats, stepping forward and then backward returns
      to the position one started from (the first position when current is absent). */
  lemma {:induction false} ForwardThenBackward<T>(s: seq<T>, current: T)
    requires |s| > 0 && Distinct(s)
    ensures SelectNext(s, s[SelectNext(s, current, true)], false) == StartPos(s, current)
  {
    var k := SelectNext(s, current, true);
    DistinctAt(s, StartPos(s, s[k]), k);
  }

  /** Likewise, stepping backward and then forward returns to the start. */
  lemma {:induction false} BackwardThenForward<T>(s: seq<T>, current: T)
    requires |s| > 0 && Distinct(s)
    ensures SelectNext(s, s[SelectNext(s, current, false)], true) == StartPos(s, current)
  {
    var k := SelectNext(s, current, false);
    DistinctAt(s, StartPos(s, s[k]), k);
  }

  /** On a sequence without repeats every position is the forward successor of
      exactly the element before it (cyclically), so repeated forward selection
      visits the whole range. */
  lemma {:induction false} ForwardReachesEvery<T>(s: seq<T>, k: nat)
    requires k < |s| && Distinct(s)
    ensures SelectNext(s, s[if k == 0 then |s| - 1 else k - 1], true) == k
  {
    var p := if k == 0 then |s| - 1 else k - 1;
    DistinctAt(s, StartPos(s, s[p]), p);
  }
}
