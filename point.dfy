/** Two-dimensional points (lib/shine.point.js). */
module Geometry {
  import opened Wrappers

  /** The value of a Point object: its x and y coordinates. */
  datatype Point = Point(x: real, y: real) {

    /** `delta`: the vector from this point to `p`, returned as a new point. */
    function Delta(p: Point): (d: Point)
      ensures Point(x + d.x, y + d.y) == p
    {
      Point(p.x - x, p.y - y)
    }

    function Negated(): Point {
      Point(-x, -y)
    }
  }

  const Origin := Point(0.0, 0.0)

  /** The constructor: a missing (or otherwise falsy) coordinate becomes 0. */
  function MakePoint(x: Option<real>, y: Option<real>): (p: Point)
    ensures x == None ==> p.x == 0.0
    ensures y == None ==> p.y == 0.0
    ensures x.Some? ==> p.x == x.value
    ensures y.Some? ==> p.y == y.value
  {
    Point(x.GetOr(0.0), y.GetOr(0.0))
  }

  /** A point's delta to itself is the zero vector. */
  lemma DeltaSelf(p: Point)
    ensures p.Delta(p) == Origin
  {
  }

  /** The delta from a to b is the negation of the delta from b to a. */
  lemma DeltaAntisymmetric(a: Point, b: Point)
    ensures a.Delta(b) == b.Delta(a).Negated()
  {
  }

  /**
   * A Point object: a mutable pair of coordinates that other objects may hold
   * by reference.
   */
  class PointRef {
    var x: real
    var y: real

    constructor(x: real, y: real)
      ensures Value() == Point(x, y)
    {
      this.x := x;
      this.y := y;
    }

    function Value(): Point
      reads this
    {
      Point(x, y)
    }

    /** `delta` on Point objects: a fresh object, neither operand changed. */
    method Delta(p: PointRef) returns (d: PointRef)
      ensures fresh(d) && d.Value() == Value().Delta(p.Value())
    {
      d := new PointRef(p.x - x, p.y - y);
    }
  }
}
