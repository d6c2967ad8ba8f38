/** QwtAxis: the four axis positions as integers and their predicates. */
module Axis {

  const YLeft: int := 0
  const YRight: int := 1
  const XBottom: int := 2
  const XTop: int := 3
  /** Number of axis positions. */
  const AxisPositions: int := XTop + 1

  /** QwtAxis::isValid. */
  predicate IsValid(axisPos: int) { axisPos >= 0 && axisPos < AxisPositions }

  /** QwtAxis::isXAxis. */
  predicate IsXAxis(axisPos: int) { axisPos == XBottom || axisPos == XTop }

  /** QwtAxis::isYAxis. */
  predicate IsYAxis(axisPos: int) { axisPos == YLeft || axisPos == YRight }

  /** The valid positions are exactly 0, 1, 2 and 3, each of them is an X or a
      Y axis and never both, and an invalid position is neither. */
  lemma AxisClassification(axisPos: int)
    ensures AxisPositions == 4
    ensures IsValid(axisPos) <==> axisPos in {YLeft, YRight, XBottom, XTop}
    ensures IsValid(axisPos) ==> IsXAxis(axisPos) != IsYAxis(axisPos)
    ensures !IsValid(axisPos) ==> !IsXAxis(axisPos) && !IsYAxis(axisPos)
    ensures IsValid(axisPos) <==> IsXAxis(axisPos) || IsYAxis(axisPos)
  {
  }
}
