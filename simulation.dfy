/**
 * The system part of src/main.ts: the canvas size, the pointer record and
 * the particle array, with init (population sizing and rebuild), the update
 * loop of animate, and the resize handler. Drawing is not modelled.
 */
module Simulation {
  import opened Wrappers
  import opened Physics
  import Pointer
  import Particles

  /** The Math.random() results one particle consumes, in call order; colour draws are not modelled. */
  datatype Draws = Draws(x: real, y: real, size: real, density: real)

  predicate InUnit(d: Draws) {
    0.0 <= d.x < 1.0 && 0.0 <= d.y < 1.0 && 0.0 <= d.size < 1.0 && 0.0 <= d.density < 1.0
  }

  /** A window narrower than 768 gets the reduced population and radius. */
  predicate IsMobile(width: real) { width < 768.0 }

  function ParticleCount(width: real): nat { if IsMobile(width) then 1200 else 2500 }

  function InfluenceRadius(width: real): real { if IsMobile(width) then 100.0 else 170.0 }

  /** A wider window never gets fewer particles or a smaller influence radius. */
  lemma SizingMonotone(w1: real, w2: real)
    requires w1 <= w2
    ensures ParticleCount(w1) <= ParticleCount(w2)
    ensures InfluenceRadius(w1) <= InfluenceRadius(w2)
  {
  }

  /** No two entries of the array are the same particle object. */
  ghost predicate Distinct(ps: seq<Particles.Particle>) {
    forall i, j :: 0 <= i < j < |ps| ==> ps[i] != ps[j]
  }

  /** `p` is the particle init builds from the draws `d` on a width x height canvas. */
  ghost predicate SeededFrom(p: Particles.Particle, d: Draws, width: real, height: real)
    reads p
  {
    InUnit(d) && 0.0 <= width && 0.0 <= height &&
    p.baseX == HomeCoord(d.x, width) && p.baseY == HomeCoord(d.y, height) &&
    p.x == p.baseX && p.y == p.baseY &&
    p.size == SizeFrom(d.size) && p.density == DensityFrom(d.density)
  }

  class Field {
    var width: real
    var height: real
    const mouse: Pointer.Mouse
    var particles: seq<Particles.Particle>

    /** What holds at every point, also between a canvas resize and the init that follows it. */
    ghost predicate WellFormed()
      reads this, mouse
    {
      mouse.Valid() && 0.0 <= width && 0.0 <= height && Distinct(particles) &&
      forall i :: 0 <= i < |particles| ==> 0.0 < particles[i].density
    }

    /** Between frames: additionally, population and radius are the ones init picks for the width. */
    ghost predicate Valid()
      reads this, mouse
    {
      WellFormed() && |particles| == ParticleCount(width) && mouse.radius == InfluenceRadius(width)
    }

    /** Startup: size the canvas to the window, create the pointer record, then init. */
    constructor (width: real, height: real, draws: seq<Draws>)
      requires 0.0 <= width && 0.0 <= height
      requires |draws| >= ParticleCount(width) && forall i :: 0 <= i < |draws| ==> InUnit(draws[i])
      ensures Valid() && fresh(mouse)
      ensures this.width == width && this.height == height
      ensures mouse.x == None && mouse.y == None && mouse.radius == InfluenceRadius(width)
      ensures |particles| == ParticleCount(width)
      ensures forall i :: 0 <= i < |particles| ==> fresh(particles[i]) && SeededFrom(particles[i], draws[i], width, height)
    {
      this.width := width;
      this.height := height;
      mouse := new Pointer.Mouse();
      particles := [];
      new;
      Init(draws);
    }

    /**
     * init: drop every particle, pick population and radius from the width,
     * and build fresh particles whose homes are drawn over the canvas.
     */
    method Init(draws: seq<Draws>)
      requires WellFormed()
      requires |draws| >= ParticleCount(width) && forall i :: 0 <= i < |draws| ==> InUnit(draws[i])
      modifies this`particles, mouse`radius
      ensures Valid()
      ensures forall p :: p in old(particles) ==> p !in particles
      ensures mouse.x == old(mouse.x) && mouse.y == old(mouse.y)
      ensures IsMobile(width) ==> |particles| == 1200 && mouse.radius == 100.0
      ensures !IsMobile(width) ==> |particles| == 2500 && mouse.radius == 170.0
      ensures forall i :: 0 <= i < |particles| ==>
                fresh(particles[i]) && SeededFrom(particles[i], draws[i], width, height)
      ensures forall i :: 0 <= i < |particles| ==>
                var p := particles[i];
                0.0 <= p.baseX && (0.0 < width ==> p.baseX < width) &&
                0.0 <= p.baseY && (0.0 < height ==> p.baseY < height) &&
                1.0 <= p.size < 3.0 && 5.0 <= p.density < 35.0
    {
      particles := [];
      var isMobile := width < 768.0;
      var numberOfParticles := if isMobile then 1200 else 2500;
      mouse.radius := if isMobile then 100.0 else 170.0;
      for i := 0 to numberOfParticles
        invariant |particles| == i && mouse.radius == InfluenceRadius(width)
        invariant Distinct(particles)
        invariant forall k :: 0 <= k < i ==> fresh(particles[k]) && 0.0 < particles[k].density
        invariant forall k :: 0 <= k < i ==> SeededFrom(particles[k], draws[k], width, height)
      {
        var d := draws[i];
        var x := HomeCoord(d.x, width);
        var y := HomeCoord(d.y, height);
        var p := new Particles.Particle(x, y, d.size, d.density);
        particles := particles + [p];
      }
    }

    /**
     * The update loop of animate: every particle takes one frame of motion,
     * in array order. `distances[i]` is the Math.sqrt result for particle i.
     */
    method Animate(distances: seq<real>)
      requires Valid()
      requires |distances| == |particles|
      requires forall i :: 0 <= i < |particles| ==>
                 IsDistance(particles[i].Body(), mouse.View(), distances[i])
      modifies particles
      ensures Valid()
      ensures forall i :: 0 <= i < |particles| ==>
                particles[i].Body() == Next(old(particles[i].Body()), mouse.View(), distances[i])
    {
      for i := 0 to |particles|
        invariant forall k :: 0 <= k < i ==>
                    particles[k].Body() == Next(old(particles[k].Body()), mouse.View(), distances[k])
        invariant forall k :: i <= k < |particles| ==> particles[k].Body() == old(particles[k].Body())
      {
        particles[i].Update(mouse, distances[i]);
      }
    }

    /** The resize handler: resize the canvas to the window, then init. */
    method OnResize(newWidth: real, newHeight: real, draws: seq<Draws>)
      requires Valid()
      requires 0.0 <= newWidth && 0.0 <= newHeight
      requires |draws| >= ParticleCount(newWidth) && forall i :: 0 <= i < |draws| ==> InUnit(draws[i])
      modifies this, mouse`radius
      ensures Valid()
      ensures width == newWidth && height == newHeight
      ensures forall p :: p in old(particles) ==> p !in particles
      ensures mouse.x == old(mouse.x) && mouse.y == old(mouse.y) && mouse.radius == InfluenceRadius(width)
      ensures |particles| == ParticleCount(width)
      ensures forall i :: 0 <= i < |particles| ==>
                fresh(particles[i]) && SeededFrom(particles[i], draws[i], width, height)
    {
      width := newWidth;
      height := newHeight;
      Init(draws);
    }
  }
}
