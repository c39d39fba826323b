/**
  Marker geometry: the centre and leading-edge midpoint of each detected
  ArUco tag (`getMassCenter`), and the rectangle outside of which a track is
  dropped (`isValidPos`). Both appear twice in the sources, once as free
  functions of Tracker/TrackerUtils.py and once as methods of
  sledilnik/TrackerGame.py; they compute the same thing.
 */
module Markers {
  import opened Geometry

  /** The valid rectangle: `PosLimitX` and `PosLimitY` (or `posLimitX`/`posLimitY`). */
  datatype Limits = Limits(xLow: real, xHigh: real, yLow: real, yHigh: real)

  /** The limits and timeout of `ResObjects`. */
  const DefaultLimits := Limits(-50.0, 3600.0, -50.0, 2100.0)
  const DefaultTimeout := 50

  /** `isValidPos`: both coordinates within their limits, ends included. */
  predicate IsValidPos(l: Limits, x: real, y: real)
  {
    l.xLow <= x <= l.xHigh && l.yLow <= y <= l.yHigh
  }

  /** The four detected corners of one tag, in the detector's order; corners
      0 and 1 span the tag's leading edge. */
  datatype Quad = Quad(c0: Point, c1: Point, c2: Point, c3: Point)

  /** The camera corrections applied to every point: `correct` (radial
      scaling about the image centre) and then `moveOrigin` (the perspective
      transform onto the field, once calibrated). Both round to integers in
      the source; here they are arbitrary functions of the map they close over. */
  datatype Correction = Correction(correct: Point -> Point, moveOrigin: Point -> Point)

  /** One detection handed to the track manager: a tag id and the corrected
      centre and leading-edge midpoint as a 4-tuple. */
  datatype Observation = Observation(id: int, position: Box)

  /** The mean of the four corners. */
  function Centroid(q: Quad): Point
  {
    Point((q.c0.x + q.c1.x + q.c2.x + q.c3.x) / 4.0, (q.c0.y + q.c1.y + q.c2.y + q.c3.y) / 4.0)
  }

  /** The mean of corners 0 and 1. */
  function LeadingMidpoint(q: Quad): Point
  {
    Point((q.c0.x + q.c1.x) / 2.0, (q.c0.y + q.c1.y) / 2.0)
  }

  function Corrected(c: Correction, p: Point): Point
  {
    c.moveOrigin(c.correct(p))
  }

  /** The 4-tuple reported for one tag: corrected centre, corrected top point. */
  function MarkerBox(c: Correction, q: Quad): (b: Box)
    ensures Point(b.x, b.y) == Corrected(c, Centroid(q))
    ensures Point(b.xTop, b.yTop) == Corrected(c, LeadingMidpoint(q))
  {
    var centre := Corrected(c, Centroid(q));
    var top := Corrected(c, LeadingMidpoint(q));
    Box(centre.x, centre.y, top.x, top.y)
  }

  /** `getMassCenter`: one observation per corner set, in input order, tagged
      with the first id of the matching entry of `ids`. The source indexes
      `ids` with a counter it advances by hand, so `ids` must be at least as
      long as `corners` and each of its entries non-empty. */
  method GetMassCenter(corners: seq<Quad>, ids: seq<seq<int>>, c: Correction)
    returns (massCenters: seq<Observation>)
    requires |ids| >= |corners|
    requires forall i :: 0 <= i < |corners| ==> |ids[i]| >= 1
    ensures |massCenters| == |corners|
    ensures forall i :: 0 <= i < |corners| ==>
      massCenters[i] == Observation(ids[i][0], MarkerBox(c, corners[i]))
  {
    var id := 0;
    massCenters := [];
    while id < |corners|
      invariant 0 <= id <= |corners|
      invariant |massCenters| == id
      invariant forall i :: 0 <= i < id ==> massCenters[i] == Observation(ids[i][0], MarkerBox(c, corners[i]))
    {
      var q := corners[id];
      var centre := c.moveOrigin(c.correct(Centroid(q)));
      var top := c.moveOrigin(c.correct(LeadingMidpoint(q)));
      massCenters := massCenters + [Observation(ids[id][0], Box(centre.x, centre.y, top.x, top.y))];
      id := id + 1;
    }
  }

  // ------------------------------------------------------------------ lemmas

  /** The bounds are inclusive on all four sides: a point exactly on an edge
      of a non-empty rectangle is valid, and any point beyond an edge is not. */
  lemma IsValidPosInclusive(l: Limits, x: real, y: real)
    requires l.xLow <= l.xHigh && l.yLow <= l.yHigh
    ensures l.yLow <= y <= l.yHigh ==> IsValidPos(l, l.xLow, y) && IsValidPos(l, l.xHigh, y)
    ensures l.xLow <= x <= l.xHigh ==> IsValidPos(l, x, l.yLow) && IsValidPos(l, x, l.yHigh)
    ensures x < l.xLow || x > l.xHigh || y < l.yLow || y > l.yHigh ==> !IsValidPos(l, x, y)
  {
  }

  /** With the default limits the four corners of the rectangle are valid and
      a point one unit to the left of it is not. */
  lemma DefaultLimitsCorners()
    ensures IsValidPos(DefaultLimits, -50.0, -50.0) && IsValidPos(DefaultLimits, 3600.0, 2100.0)
    ensures IsValidPos(DefaultLimits, -50.0, 2100.0) && IsValidPos(DefaultLimits, 3600.0, -50.0)
    ensures !IsValidPos(DefaultLimits, -51.0, 0.0) && !IsValidPos(DefaultLimits, 0.0, 2101.0)
  {
  }

  /** The centre does not depend on which corner the detector lists first,
      nor on the direction in which it lists them. */
  lemma CentroidRotationInvariant(q: Quad)
    ensures Centroid(Quad(q.c1, q.c2, q.c3, q.c0)) == Centroid(q)
    ensures Centroid(Quad(q.c3, q.c2, q.c1, q.c0)) == Centroid(q)
  {
  }

  /** The deviations of the corners from the centre cancel out, and the top
      point lies halfway between corners 0 and 1. */
  lemma CentroidBalances(q: Quad)
    ensures var m := Centroid(q);
      (q.c0.x - m.x) + (q.c1.x - m.x) + (q.c2.x - m.x) + (q.c3.x - m.x) == 0.0 &&
      (q.c0.y - m.y) + (q.c1.y - m.y) + (q.c2.y - m.y) + (q.c3.y - m.y) == 0.0
    ensures var t := LeadingMidpoint(q);
      q.c0.x - t.x == t.x - q.c1.x && q.c0.y - t.y == t.y - q.c1.y
  {
  }

  /** Without correction, a tag's reported box is its raw centre and top point. */
  lemma UncorrectedBox(q: Quad)
    ensures MarkerBox(Correction(p => p, p => p), q) ==
      Box(Centroid(q).x, Centroid(q).y, LeadingMidpoint(q).x, LeadingMidpoint(q).y)
  {
  }
}
