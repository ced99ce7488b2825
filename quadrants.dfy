/** Spatial selection regions: open rectangles and their unions. */
module Quadrants {
  import opened Wrappers

  /**
   * An axis-aligned open rectangle. The bounds are kept exactly as given,
   * so a range given in the wrong order stays inverted.
   */
  datatype Quadrant = Quadrant(minX: real, maxX: real, minY: real, maxY: real)
  {
    /** Strict on all four sides: a point on the boundary is outside. */
    predicate Contains(x: real, y: real)
      ensures Contains(x, y) ==> !Inverted() && minX < maxX && minY < maxY
      ensures Contains(x, y) ==> x != minX && x != maxX && y != minY && y != maxY
    {
      x > minX && x < maxX && y > minY && y < maxY
    }

    /** The condition under which the constructor warns about the range order. */
    predicate Inverted()
    {
      minX > maxX || minY > maxY
    }
  }

  /**
   * The Quadrant constructor: each range must hold exactly two bounds,
   * otherwise ValueError; an inverted range is accepted and stored as it is.
   */
  function NewQuadrant(xRange: seq<real> := [0.0, 0.0], yRange: seq<real> := [0.0, 0.0]): (r: Result<Quadrant>)
    ensures r.Failure? <==> |xRange| != 2 || |yRange| != 2
    ensures r.Failure? ==> r.error == ValueError
    ensures r.Success? ==> r.value.minX == xRange[0] && r.value.maxX == xRange[1]
    ensures r.Success? ==> r.value.minY == yRange[0] && r.value.maxY == yRange[1]
  {
    if |xRange| != 2 || |yRange| != 2 then Failure(ValueError)
    else Success(Quadrant(xRange[0], xRange[1], yRange[0], yRange[1]))
  }

  /** A quadrant contains some point exactly when both of its ranges are proper. */
  lemma NonEmptyIff(q: Quadrant)
    ensures (exists x: real, y: real :: q.Contains(x, y)) <==> q.minX < q.maxX && q.minY < q.maxY
  {
    if q.minX < q.maxX && q.minY < q.maxY {
      var x, y := (q.minX + q.maxX) / 2.0, (q.minY + q.maxY) / 2.0;
      assert q.Contains(x, y);
    }
  }

  /** No point on any of the four boundary lines is contained. */
  lemma BoundaryExcluded(q: Quadrant, x: real, y: real)
    requires x == q.minX || x == q.maxX || y == q.minY || y == q.maxY
    ensures !q.Contains(x, y)
  {
  }

  /** An inverted quadrant, accepted with a warning only, contains no point. */
  lemma InvertedContainsNothing(xRange: seq<real>, yRange: seq<real>, x: real, y: real)
    requires |xRange| == 2 && |yRange| == 2
    requires xRange[0] > xRange[1] || yRange[0] > yRange[1]
    ensures NewQuadrant(xRange, yRange).Success?
    ensures NewQuadrant(xRange, yRange).value.Inverted()
    ensures !NewQuadrant(xRange, yRange).value.Contains(x, y)
  {
  }

  /** The default quadrant, with both ranges [0, 0], contains no point. */
  lemma DefaultQuadrantEmpty(x: real, y: real)
    ensures NewQuadrant().Success?
    ensures !NewQuadrant().value.Contains(x, y)
  {
  }

  /** Quadrant([0,10],[0,10]) contains (5,5) but neither (0,5) nor (10,10). */
  lemma TenByTenExample()
    ensures NewQuadrant([0.0, 10.0], [0.0, 10.0]).Success?
    ensures NewQuadrant([0.0, 10.0], [0.0, 10.0]).value.Contains(5.0, 5.0)
    ensures !NewQuadrant([0.0, 10.0], [0.0, 10.0]).value.Contains(0.0, 5.0)
    ensures !NewQuadrant([0.0, 10.0], [0.0, 10.0]).value.Contains(10.0, 10.0)
  {
  }

  /** A union of quadrants; the default holds none. */
  datatype QuadrantSuperposition = QuadrantSuperposition(quadrants: seq<Quadrant> := [])
  {
    /** The search over the member quadrants, stopping at the first that contains the point. */
    predicate Contains(x: real, y: real)
      ensures Contains(x, y) <==> exists i :: 0 <= i < |quadrants| && quadrants[i].Contains(x, y)
    {
      AnyContains(quadrants, x, y)
    }
  }

  /** True iff some quadrant of `qs` contains (x, y). */
  function AnyContains(qs: seq<Quadrant>, x: real, y: real): (r: bool)
    ensures r <==> exists i :: 0 <= i < |qs| && qs[i].Contains(x, y)
  {
    if qs == [] then false
    else if qs[0].Contains(x, y) then true
    else AnyContains(qs[1..], x, y)
  }

  /** The empty superposition contains nothing. */
  lemma EmptySuperpositionContainsNothing(x: real, y: real)
    ensures !QuadrantSuperposition().Contains(x, y)
  {
  }

  /**
   * Containment depends only on which quadrants are listed: neither their
   * order nor repetitions matter.
   */
  lemma SuperpositionOrderIrrelevant(a: seq<Quadrant>, b: seq<Quadrant>, x: real, y: real)
    requires forall q :: q in a <==> q in b
    ensures QuadrantSuperposition(a).Contains(x, y) == QuadrantSuperposition(b).Contains(x, y)
  {
    if AnyContains(a, x, y) {
      var i :| 0 <= i < |a| && a[i].Contains(x, y);
      assert a[i] in b;
    }
    if AnyContains(b, x, y) {
      var i :| 0 <= i < |b| && b[i].Contains(x, y);
      assert b[i] in a;
    }
  }
}
