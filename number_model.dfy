/**
 * Particle.update as written in src/main.ts, over JavaScript numbers, to show
 * its zero-distance defect: with the pointer exactly on a particle the
 * repulsion branch computes 0 / 0, the position becomes NaN, and NaN then
 * survives every later frame. UpdateGuarded adds the missing guard and is
 * proved to agree with Physics.Next, the rule the rest of the model uses.
 */
module NumberModel {
  import opened Wrappers
  import opened Physics

  /**
   * A JavaScript number as far as update can produce one: finite or NaN.
   * Infinity cannot arise there (see Div).
   */
  datatype Number = Fin(val: real) | NaN

  function Sub(a: Number, b: Number): Number {
    if a.Fin? && b.Fin? then Fin(a.val - b.val) else NaN
  }

  function Mul(a: Number, b: Number): Number {
    if a.Fin? && b.Fin? then Fin(a.val * b.val) else NaN
  }

  /**
   * Division: 0 / 0 is NaN. A non-zero value over zero (an Infinity) is
   * excluded; in update a zero distance always comes with zero offsets.
   */
  function Div(a: Number, b: Number): Number
    requires !(a.Fin? && b.Fin? && b.val == 0.0 && a.val != 0.0)
  {
    if a.Fin? && b.Fin? then (if b.val == 0.0 then NaN else Fin(a.val / b.val)) else NaN
  }

  /** `<`: every comparison with NaN is false. */
  predicate Less(a: Number, b: Number) { a.Fin? && b.Fin? && a.val < b.val }

  /** `!==`: NaN differs even from itself. */
  predicate NotIdentical(a: Number, b: Number) { !(a.Fin? && b.Fin? && a.val == b.val) }

  /** A particle whose position may have become NaN; home and density are finite. */
  datatype JsParticle = JsParticle(x: Number, y: Number, baseX: real, baseY: real, density: real)

  function Lift(b: Body): JsParticle {
    JsParticle(Fin(b.x), Fin(b.y), b.baseX, b.baseY, b.density)
  }

  /** `dist` is Math.sqrt(dx * dx + dy * dy) for pointer (mx, my); NaN in, NaN out. */
  predicate IsJsDistance(p: JsParticle, mx: real, my: real, dist: Number) {
    if p.x.Fin? && p.y.Fin? then
      var dx, dy := mx - p.x.val, my - p.y.val;
      dist.Fin? && 0.0 <= dist.val && dist.val * dist.val == dx * dx + dy * dy
    else dist == NaN
  }

  predicate FrameOk(p: JsParticle, m: PointerView, dist: Number) {
    0.0 < m.radius && (Present(m) ==> IsJsDistance(p, m.x.value, m.y.value, dist))
  }

  function ReturnHomeAsWritten(p: JsParticle): JsParticle {
    var x := if NotIdentical(p.x, Fin(p.baseX)) then Sub(p.x, Div(Sub(p.x, Fin(p.baseX)), Fin(15.0))) else p.x;
    var y := if NotIdentical(p.y, Fin(p.baseY)) then Sub(p.y, Div(Sub(p.y, Fin(p.baseY)), Fin(15.0))) else p.y;
    p.(x := x, y := y)
  }

  /** One axis of the repulsion: pos - (offset / dist) * force * density, in the source's order. */
  function PushAxis(pos: Number, offset: Number, dist: Number, force: Number, density: real): Number
    requires !(offset.Fin? && dist.Fin? && dist.val == 0.0 && offset.val != 0.0)
  {
    Sub(pos, Mul(Mul(Div(offset, dist), force), Fin(density)))
  }

  /** The repulsion branch, unguarded. */
  function PushAsWritten(p: JsParticle, m: PointerView, dist: Number): JsParticle
    requires Present(m) && FrameOk(p, m, dist)
  {
    var dx := Sub(Fin(m.x.value), p.x);
    var dy := Sub(Fin(m.y.value), p.y);
    ZeroDistanceZeroOffsets(p, m, dist);
    var force := Div(Sub(Fin(m.radius), dist), Fin(m.radius));
    p.(x := PushAxis(p.x, dx, dist, force, p.density), y := PushAxis(p.y, dy, dist, force, p.density))
  }

  /** Particle.update exactly as written. */
  function UpdateAsWritten(p: JsParticle, m: PointerView, dist: Number): JsParticle
    requires FrameOk(p, m, dist)
  {
    if Present(m) then
      if Less(dist, Fin(m.radius)) then PushAsWritten(p, m, dist) else ReturnHomeAsWritten(p)
    else ReturnHomeAsWritten(p)
  }

  /** Particle.update with the guard: at distance 0 the frame leaves the particle in place. */
  function UpdateGuarded(p: JsParticle, m: PointerView, dist: Number): JsParticle
    requires FrameOk(p, m, dist)
  {
    if Present(m) then
      if Less(dist, Fin(m.radius)) then
        if dist == Fin(0.0) then p else PushAsWritten(p, m, dist)
      else ReturnHomeAsWritten(p)
    else ReturnHomeAsWritten(p)
  }

  /** A zero distance means both offsets are zero, so the only division by zero is 0 / 0. */
  lemma ZeroDistanceZeroOffsets(p: JsParticle, m: PointerView, dist: Number)
    requires Present(m) && FrameOk(p, m, dist)
    ensures dist == Fin(0.0) ==> Sub(Fin(m.x.value), p.x) == Fin(0.0) && Sub(Fin(m.y.value), p.y) == Fin(0.0)
  {
    if dist == Fin(0.0) {
      SumOfSquaresZero(m.x.value - p.x.val, m.y.value - p.y.val);
    }
  }

  lemma SumOfSquaresZero(a: real, b: real)
    requires a * a + b * b == 0.0
    ensures a == 0.0 && b == 0.0
  {
    assert a * a == SignedProduct(a, a);
    assert b * b == SignedProduct(b, b);
  }

  /** A product together with its sign rule, for the solver to use on squares. */
  function SignedProduct(a: real, b: real): (r: real)
    ensures (0.0 < a && 0.0 < b) || (a < 0.0 && b < 0.0) ==> 0.0 < r
  {
    a * b
  }

  /**
   * The defect: a pointer exactly on a finite particle, inside the radius,
   * turns both coordinates into NaN.
   */
  lemma CoincidentPointerGivesNaN(p: JsParticle, radius: real)
    requires p.x.Fin? && p.y.Fin? && 0.0 < radius
    ensures var m := PointerView(Some(p.x.val), Some(p.y.val), radius);
            FrameOk(p, m, Fin(0.0)) &&
            UpdateAsWritten(p, m, Fin(0.0)).x == NaN && UpdateAsWritten(p, m, Fin(0.0)).y == NaN
  {
  }

  /** A NaN coordinate stays NaN through one more frame, whatever the pointer does. */
  lemma NaNStaysNaN(p: JsParticle, m: PointerView, dist: Number)
    requires FrameOk(p, m, dist)
    ensures p.x == NaN ==> UpdateAsWritten(p, m, dist).x == NaN
    ensures p.y == NaN ==> UpdateAsWritten(p, m, dist).y == NaN
  {
  }

  /** One frame of the host loop: the pointer record and the distance update is given. */
  datatype Frame = Frame(pointer: PointerView, dist: Number)

  /** Every frame's distance is the Math.sqrt result for the state that frame starts from. */
  predicate Admissible(p: JsParticle, frames: seq<Frame>)
    decreases |frames|
  {
    frames == [] ||
    (FrameOk(p, frames[0].pointer, frames[0].dist) &&
     Admissible(UpdateAsWritten(p, frames[0].pointer, frames[0].dist), frames[1..]))
  }

  /** The as-written update applied frame after frame. */
  function RunAsWritten(p: JsParticle, frames: seq<Frame>): JsParticle
    requires Admissible(p, frames)
    decreases |frames|
  {
    if frames == [] then p
    else RunAsWritten(UpdateAsWritten(p, frames[0].pointer, frames[0].dist), frames[1..])
  }

  /** Once NaN, always NaN: no sequence of later frames brings the particle back. */
  lemma {:induction false} NaNPersists(p: JsParticle, frames: seq<Frame>)
    requires Admissible(p, frames)
    decreases |frames|
    ensures p.x == NaN ==> RunAsWritten(p, frames).x == NaN
    ensures p.y == NaN ==> RunAsWritten(p, frames).y == NaN
  {
    if frames != [] {
      var f := frames[0];
      NaNStaysNaN(p, f.pointer, f.dist);
      NaNPersists(UpdateAsWritten(p, f.pointer, f.dist), frames[1..]);
    }
  }

  /**
   * The guarded update on a finite particle is exactly Physics.Next: the
   * position stays finite on every frame, the coincident pointer included.
   */
  lemma GuardedAgreesWithModel(b: Body, m: PointerView, d: real)
    requires 0.0 < m.radius && IsDistance(b, m, d)
    ensures FrameOk(Lift(b), m, Fin(d))
    ensures UpdateGuarded(Lift(b), m, Fin(d)) == Lift(Next(b, m, d))
  {
    if Present(m) && d < m.radius && d != 0.0 {
      PushAgrees(b, m, d);
    } else if !Present(m) || m.radius <= d {
      HomeAgrees(b);
    }
  }

  lemma HomeAgrees(b: Body)
    ensures ReturnHomeAsWritten(Lift(b)) == Lift(Home(b))
  {
  }

  lemma PushAgrees(b: Body, m: PointerView, d: real)
    requires 0.0 < m.radius && IsDistance(b, m, d) && Present(m) && 0.0 < d < m.radius
    ensures FrameOk(Lift(b), m, Fin(d))
    ensures PushAsWritten(Lift(b), m, Fin(d)) == Lift(Next(b, m, d))
  {
    assert FrameOk(Lift(b), m, Fin(d));
    PushFinite(Lift(b), m, d);
  }

  /** The unguarded repulsion on finite numbers and a non-zero distance computes Physics.Pushed. */
  lemma PushFinite(p: JsParticle, m: PointerView, d: real)
    requires Present(m) && FrameOk(p, m, Fin(d)) && p.x.Fin? && p.y.Fin? && 0.0 < d < m.radius
    ensures var force := Force(m.radius, d);
            PushAsWritten(p, m, Fin(d)) ==
              p.(x := Fin(Pushed(p.x.val, m.x.value - p.x.val, d, force, p.density)),
                 y := Fin(Pushed(p.y.val, m.y.value - p.y.val, d, force, p.density)))
  {
    var dx, dy, force := m.x.value - p.x.val, m.y.value - p.y.val, Force(m.radius, d);
    assert Sub(Fin(m.x.value), p.x) == Fin(dx) && Sub(Fin(m.y.value), p.y) == Fin(dy);
    assert Div(Sub(Fin(m.radius), Fin(d)), Fin(m.radius)) == Fin(force);
    PushAxisFinite(p.x.val, dx, d, force, p.density);
    PushAxisFinite(p.y.val, dy, d, force, p.density);
  }

  lemma PushAxisFinite(pos: real, offset: real, d: real, force: real, density: real)
    requires d != 0.0
    ensures PushAxis(Fin(pos), Fin(offset), Fin(d), Fin(force), density) == Fin(Pushed(pos, offset, d, force, density))
  {
  }
}
