/** Light sources (lib/shine.light.js). */
module Lights {
  import opened Geometry

  class Light {
    /** Held by reference: moving that Point object moves the light. */
    var position: PointRef
    var intensity: real

    /** With no position a fresh (0, 0) point is made; intensity starts at 1.0. */
    constructor(optPosition: PointRef?)
      ensures optPosition != null ==> position == optPosition
      ensures optPosition == null ==> fresh(position) && position.Value() == Origin
      ensures intensity == 1.0
    {
      if optPosition != null {
        position := optPosition;
      } else {
        position := new PointRef(0.0, 0.0);
      }
      intensity := 1.0;
    }
  }

  /** A light built on a shared Point follows later updates of that Point. */
  method SharedPositionMoves(p: PointRef, x: real, y: real) returns (light: Light)
    modifies p
    ensures fresh(light) && light.position == p
    ensures light.position.Value() == Point(x, y)
  {
    light := new Light(p);
    p.x, p.y := x, y;
  }

  /** Two default lights own distinct position objects. */
  method DefaultLightsDoNotShare() returns (a: Light, b: Light)
    ensures a.position != b.position
    ensures a.position.Value() == Origin && b.position.Value() == Origin
  {
    a := new Light(null);
    b := new Light(null);
  }
}
