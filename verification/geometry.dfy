/** Axis-aligned squares and the strict overlap test shared by the collision
    and goal systems. All coordinates are exact reals (world units = pixels). */
module Geometry {

  function Abs(r: real): real {
    if r < 0.0 then -r else r
  }

  function Min(a: real, b: real): real {
    if a <= b then a else b
  }

  function Max(a: real, b: real): real {
    if a >= b then a else b
  }

  /** A point in world coordinates (the spawn point, a snapshot position). */
  datatype Point = Point(x: real, y: real)

  /** What the overlap test sees of an entity: its centre and half edge length. */
  datatype Box = Box(x: real, y: real, halfSize: real)

  /** The intermediate values of one overlap test, kept because the collision
      resolver reuses them to choose and size its push. */
  datatype CollisionData = CollisionData(
    combinedHalfSize: real,
    dx: real,
    dy: real,
    absDx: real,
    absDy: real,
    overlaps: bool)

  /** The open intervals (lo1, hi1) and (lo2, hi2) share a point. */
  predicate OpenIntervalsMeet(lo1: real, hi1: real, lo2: real, hi2: real) {
    lo1 < hi2 && lo2 < hi1
  }

  /** The overlap test of `a` against `b`, with the offsets the collision
      resolver reuses: the centre offsets of `a` from `b`, their magnitudes,
      and whether the open extents of the squares meet on both axes. */
  function ComputeCollisionData(a: Box, b: Box): (d: CollisionData)
    ensures d.absDx >= 0.0 && d.absDy >= 0.0
    ensures d.overlaps <==>
      && OpenIntervalsMeet(a.x - a.halfSize, a.x + a.halfSize, b.x - b.halfSize, b.x + b.halfSize)
      && OpenIntervalsMeet(a.y - a.halfSize, a.y + a.halfSize, b.y - b.halfSize, b.y + b.halfSize)
  {
    var combinedHalfSize := a.halfSize + b.halfSize;
    var dx := a.x - b.x;
    var dy := a.y - b.y;
    var absDx := Abs(dx);
    var absDy := Abs(dy);
    CollisionData(combinedHalfSize, dx, dy, absDx, absDy,
                  absDx < combinedHalfSize && absDy < combinedHalfSize)
  }

  predicate Overlaps(a: Box, b: Box) {
    ComputeCollisionData(a, b).overlaps
  }

  /** The overlap test does not depend on the order of its arguments. */
  lemma OverlapsSymmetric(a: Box, b: Box)
    ensures Overlaps(a, b) <==> Overlaps(b, a)
  {
  }

  /** Exact edge contact on either axis is not an overlap. */
  lemma EdgeContactIsNotOverlap(a: Box, b: Box)
    requires Abs(a.x - b.x) == a.halfSize + b.halfSize || Abs(a.y - b.y) == a.halfSize + b.halfSize
    ensures !Overlaps(a, b)
  {
  }
}
