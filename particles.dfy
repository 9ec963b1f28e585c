/**
 * The Particle class of src/main.ts without drawing and colour: a current
 * position that every frame rewrites, and a home, size and density fixed by
 * the constructor (they are never written again, so they are constants here).
 */
module Particles {
  import opened Wrappers
  import opened Physics
  import Pointer

  class Particle {
    var x: real
    var y: real
    const size: real
    const baseX: real
    const baseY: real
    const density: real

    /**
     * A particle at (x, y) whose home is (x, y); `sizeDraw` and `densityDraw`
     * are the two Math.random() results the constructor consumes for them.
     */
    constructor (x: real, y: real, sizeDraw: real, densityDraw: real)
      requires 0.0 <= sizeDraw < 1.0 && 0.0 <= densityDraw < 1.0
      ensures this.x == x && this.y == y && baseX == x && baseY == y
      ensures size == SizeFrom(sizeDraw) && density == DensityFrom(densityDraw)
    {
      this.x := x;
      this.y := y;
      baseX := x;
      baseY := y;
      size := sizeDraw * 2.0 + 1.0;
      density := densityDraw * 30.0 + 5.0;
    }

    /** The state the motion rule reads and writes. */
    function Body(): Physics.Body
      reads this
    {
      Physics.Body(x, y, baseX, baseY, density)
    }

    /**
     * One frame of motion. `distance` is the Math.sqrt result for the
     * pointer-to-particle distance. At distance 0 the source divides 0 by 0;
     * here that frame leaves the particle where it is.
     */
    method Update(mouse: Pointer.Mouse, distance: real)
      requires mouse.Valid()
      requires IsDistance(Body(), mouse.View(), distance)
      modifies this`x, this`y
      ensures Body() == Next(old(Body()), mouse.View(), distance)
    {
      if mouse.x.Some? && mouse.y.Some? {
        var dx := mouse.x.value - x;
        var dy := mouse.y.value - y;
        if distance < mouse.radius {
          if distance != 0.0 {
            var forceDirectionX := dx / distance;
            var forceDirectionY := dy / distance;
            var force := (mouse.radius - distance) / mouse.radius;
            var directionX := forceDirectionX * force * density;
            var directionY := forceDirectionY * force * density;
            x := x - directionX;
            y := y - directionY;
          }
        } else {
          ReturnHome();
        }
      } else {
        ReturnHome();
      }
    }

    /** One frame of relaxation toward home. */
    method ReturnHome()
      modifies this`x, this`y
      ensures Body() == Home(old(Body()))
    {
      if x != baseX {
        var dx := x - baseX;
        x := x - dx / 15.0;
      }
      if y != baseY {
        var dy := y - baseY;
        y := y - dy / 15.0;
      }
    }
  }
}
