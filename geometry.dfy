/**
 * Rectangle geometry used by the drag engine: the overlap test that drives the
 * drop-zone highlight, and the intersection ratio helper.
 *
 * Both functions are modelled exactly as written, including the overlap test's
 * comparison of the first rectangle against itself on the horizontal axis.
 */
module Geometry {

  /** The fields of a DOMRect that the code reads (page coordinates, y grows downwards). */
  datatype Rect = Rect(top: real, left: real, right: real, bottom: real, width: real, height: real)

  /** A rectangle whose edges are in order on both axes. */
  predicate WellFormed(r: Rect)
  {
    r.left <= r.right && r.top <= r.bottom
  }

  /**
   * Independent reference: two rectangles meet when their closed extents
   * intersect on both axes (shared edges and corners included).
   */
  predicate Intersects(a: Rect, b: Rect)
  {
    a.left <= b.right && b.left <= a.right &&
    a.top <= b.bottom && b.top <= a.bottom
  }

  /**
   * The default export of calculateElementsOverlap.ts, as written. A reported
   * overlap needs el1's horizontal edges in order, and is a real intersection
   * unless el1 lies wholly to the left of el2.
   */
  function Overlap(el1: Rect, el2: Rect): (r: bool)
    ensures r ==> el1.left <= el1.right
    ensures r ==> Intersects(el1, el2) || el1.right < el2.left
  {
    !(el1.right < el1.left ||
      el1.left > el2.right ||
      el1.bottom < el2.top ||
      el1.top > el2.bottom)
  }

  /** Each of the three separating tests that do involve el2 forces a negative answer. */
  lemma SeparatedNeverOverlaps(el1: Rect, el2: Rect)
    requires el1.left > el2.right || el1.bottom < el2.top || el1.top > el2.bottom
    ensures !Overlap(el1, el2)
  {
  }

  /** A horizontally inverted el1 never overlaps anything, whatever el2 is. */
  lemma InvertedFirstNeverOverlaps(el1: Rect, el2: Rect)
    requires el1.right < el1.left
    ensures !Overlap(el1, el2)
  {
  }

  /**
   * For an el1 whose horizontal edges are in order, the test is exactly the
   * three remaining comparisons: nothing compares el1.right with el2.left.
   */
  lemma OverlapWhenOrdered(el1: Rect, el2: Rect)
    requires el1.left <= el1.right
    ensures Overlap(el1, el2) <==> !(el1.left > el2.right || el1.bottom < el2.top || el1.top > el2.bottom)
  {
  }

  /** The answer never depends on el2.left: moving el2's left edge changes nothing. */
  lemma OverlapIgnoresSecondLeft(el1: Rect, el2: Rect, newLeft: real)
    ensures Overlap(el1, el2.(left := newLeft)) == Overlap(el1, el2)
  {
  }

  /**
   * No false negatives: an el1 whose horizontal edges are in order and that
   * meets el2 (closed intervals, so touching edges count) is reported as
   * overlapping. The vertical order of el1 is not needed.
   */
  lemma NoFalseNegatives(el1: Rect, el2: Rect)
    requires el1.left <= el1.right
    requires Intersects(el1, el2)
    ensures Overlap(el1, el2)
  {
  }

  /**
   * The false positives are exactly the cases where el1 lies wholly to the
   * left of el2: for a well-formed el1, a reported overlap is a real one
   * unless el1.right < el2.left.
   */
  lemma FalsePositivesAreLeftOfSecond(el1: Rect, el2: Rect)
    requires WellFormed(el1)
    ensures Overlap(el1, el2) && !Intersects(el1, el2) <==> Overlap(el1, el2) && el1.right < el2.left
    ensures Overlap(el1, el2) <==> Intersects(el1, el2) || (el1.right < el2.left && Overlap(el1, el2))
  {
  }

  /** The unit square at the origin and the unit square at x = 5. */
  const UnitSquare := Rect(0.0, 0.0, 1.0, 1.0, 1.0, 1.0)
  const FarRightSquare := Rect(0.0, 5.0, 6.0, 1.0, 1.0, 1.0)

  /**
   * The test is not commutative, and reports an overlap for two disjoint
   * squares when the first lies to the left of the second.
   */
  lemma NotCommutative()
    ensures Overlap(UnitSquare, FarRightSquare)
    ensures !Overlap(FarRightSquare, UnitSquare)
    ensures !Intersects(UnitSquare, FarRightSquare)
  {
  }

  /**
   * Result of getIntersectionRatio over the reals, before its rounding to four
   * decimals. Dividing a positive area by zero gives +Infinity in the source.
   */
  datatype Ratio = Finite(value: real) | PositiveInfinity

  /**
   * getIntersectionRatio as written: the "intersection" is built from target
   * alone, so its area is target's own area and entry contributes only its
   * width and height.
   */
  function IntersectionRatio(entry: Rect, target: Rect): (r: Ratio)
    ensures target.width <= 0.0 || target.height <= 0.0 ==> r == Finite(0.0)
    ensures r == PositiveInfinity <==>
              target.width > 0.0 && target.height > 0.0 && entry.width * entry.height == 0.0
  {
    var top := target.top;
    var left := target.left;
    var right := target.left + target.width;
    var bottom := target.top + target.height;
    var width := right - left;
    var height := bottom - top;
    if left < right && top < bottom then
      var targetArea := target.width * target.height;
      var entryArea := entry.width * entry.height;
      var intersectionArea := width * height;
      var denominator := targetArea + entryArea - intersectionArea;
      if denominator == 0.0 then PositiveInfinity
      else Finite(intersectionArea / denominator)
    else
      Finite(0.0)
  }

  /** Where entry lies never matters: only its width and height are read. */
  lemma IntersectionRatioIgnoresEntryPosition(entry: Rect, target: Rect, top: real, left: real, right: real, bottom: real)
    ensures IntersectionRatio(entry.(top := top, left := left, right := right, bottom := bottom), target)
         == IntersectionRatio(entry, target)
  {
  }

  /**
   * With a target of positive extent and an entry of nonzero area, the ratio
   * is target's area over entry's area.
   */
  lemma IntersectionRatioIsAreaQuotient(entry: Rect, target: Rect)
    requires target.width > 0.0 && target.height > 0.0
    requires entry.width * entry.height != 0.0
    ensures IntersectionRatio(entry, target)
         == Finite((target.width * target.height) / (entry.width * entry.height))
  {
  }

  /** Two rectangles of the same positive size give a ratio of exactly one. */
  lemma IntersectionRatioOfSameSize(entry: Rect, target: Rect)
    requires target.width > 0.0 && target.height > 0.0
    requires entry.width == target.width && entry.height == target.height
    ensures IntersectionRatio(entry, target) == Finite(1.0)
  {
    var area := target.width * target.height;
    assert area > 0.0 by {
      assert target.width * target.height > 0.0 * target.height;
    }
    assert entry.width * entry.height == area;
    IntersectionRatioIsAreaQuotient(entry, target);
    assert area / area == 1.0;
  }

  /**
   * Disjoint rectangles do not give zero: the ratio ignores where the two lie,
   * so the unit square against the far-right square gives one.
   */
  lemma IntersectionRatioOfDisjoint()
    ensures !Intersects(UnitSquare, FarRightSquare)
    ensures IntersectionRatio(UnitSquare, FarRightSquare) == Finite(1.0)
  {
  }
}
