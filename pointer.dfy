/**
 * The shared pointer record of src/main.ts (`mouse`): the latest pointer
 * coordinates, each possibly undefined, and the influence radius. The window
 * event handlers write it; Particle.update reads it.
 */
module Pointer {
  import opened Wrappers
  import Physics

  class Mouse {
    var x: Option<real>
    var y: Option<real>
    var radius: real

    /** The handlers always set or clear both coordinates; the radius is positive. */
    ghost predicate Valid()
      reads this
    {
      x.Some? == y.Some? && 0.0 < radius
    }

    /** The record as it stands at startup: no pointer, radius 150. */
    constructor ()
      ensures Valid()
      ensures x == None && y == None && radius == 150.0
    {
      x, y, radius := None, None, 150.0;
    }

    /** What the motion rule reads of this record. */
    function View(): Physics.PointerView
      reads this
    {
      Physics.PointerView(x, y, radius)
    }

    /** The mousemove handler: record the event's coordinates. */
    method OnMouseMove(eventX: real, eventY: real)
      requires Valid()
      modifies this
      ensures Valid()
      ensures x == Some(eventX) && y == Some(eventY) && radius == old(radius)
    {
      x := Some(eventX);
      y := Some(eventY);
    }

    /**
     * The touchstart and touchmove handlers (identical): record the first
     * touch point, if any; with no touch points the record is left as it is.
     */
    method OnTouch(touches: seq<(real, real)>)
      requires Valid()
      modifies this
      ensures Valid()
      ensures |touches| > 0 ==> x == Some(touches[0].0) && y == Some(touches[0].1)
      ensures |touches| == 0 ==> x == old(x) && y == old(y)
      ensures radius == old(radius)
    {
      if |touches| > 0 {
        x := Some(touches[0].0);
        y := Some(touches[0].1);
      }
    }

    /** handleEnd, for touchend and mouseout: forget the pointer. */
    method OnEnd()
      requires Valid()
      modifies this
      ensures Valid()
      ensures x == None && y == None && radius == old(radius)
    {
      x := None;
      y := None;
    }
  }
}
