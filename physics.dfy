/**
 * The per-frame motion rule of one particle (Particle.update and
 * Particle.returnHome in src/main.ts) stated over real numbers, as
 * specification functions. The class methods in module Particles are proved
 * against these, and the lemmas here state what the rule guarantees.
 */
module Physics {
  import opened Wrappers

  /** The state of a particle that the motion rule reads and writes. */
  datatype Body = Body(x: real, y: real, baseX: real, baseY: real, density: real)

  /** What the motion rule reads of the shared pointer record. */
  datatype PointerView = PointerView(x: Option<real>, y: Option<real>, radius: real)

  /** Both pointer coordinates are defined (the test update makes first). */
  predicate Present(m: PointerView) { m.x.Some? && m.y.Some? }

  /**
   * `d` is what Math.sqrt returns for the pointer-to-particle distance: the
   * non-negative root of dx*dx + dy*dy. It is only computed, and so only
   * constrained, when the pointer is present.
   */
  predicate IsDistance(b: Body, m: PointerView, d: real) {
    Present(m) ==>
      var dx, dy := m.x.value - b.x, m.y.value - b.y;
      0.0 <= d && d * d == dx * dx + dy * dy
  }

  /** The repulsion branch is taken: pointer present and strictly inside the radius. */
  predicate Repels(m: PointerView, d: real) { Present(m) && d < m.radius }

  /** Linear falloff of the push: 1 at the pointer, tending to 0 at the edge. */
  function Force(radius: real, d: real): (f: real)
    requires 0.0 <= d < radius
    ensures 0.0 < f <= 1.0
    ensures f == 1.0 <==> d == 0.0
  {
    (radius - d) / radius
  }

  /** One axis of returnHome: an axis away from home closes 1/15 of its gap. */
  function HomeAxis(p: real, base: real): (r: real)
    ensures r - base == (p - base) * (14.0 / 15.0)
  {
    if p != base then p - (p - base) / 15.0 else p
  }

  /** returnHome: each axis keeps 14/15 of its gap; home and density are untouched. */
  function Home(b: Body): (r: Body)
    ensures r.baseX == b.baseX && r.baseY == b.baseY && r.density == b.density
    ensures r.x - r.baseX == (b.x - b.baseX) * (14.0 / 15.0)
    ensures r.y - r.baseY == (b.y - b.baseY) * (14.0 / 15.0)
  {
    b.(x := HomeAxis(b.x, b.baseX), y := HomeAxis(b.y, b.baseY))
  }

  /**
   * update, with the zero-distance guard: inside the radius the particle is
   * pushed along the pointer-to-particle direction by force * density; at
   * distance 0 there is no direction and the particle stays put for the
   * frame; in every other case it homes.
   */
  function Next(b: Body, m: PointerView, d: real): (r: Body)
    requires 0.0 < m.radius
    requires IsDistance(b, m, d)
    ensures r.baseX == b.baseX && r.baseY == b.baseY && r.density == b.density
    ensures !Repels(m, d) ==> r == Home(b)
    ensures Repels(m, d) && d == 0.0 ==> r == b
    ensures Repels(m, d) && 0.0 < d ==>
              var k := Force(m.radius, d) * b.density / d;
              r.x - b.x == k * (b.x - m.x.value) && r.y - b.y == k * (b.y - m.y.value)
  {
    if Present(m) then
      var dx := m.x.value - b.x;
      var dy := m.y.value - b.y;
      if d < m.radius then
        if d == 0.0 then b
        else
          var force := Force(m.radius, d);
          b.(x := Pushed(b.x, dx, d, force, b.density), y := Pushed(b.y, dy, d, force, b.density))
      else Home(b)
    else Home(b)
  }

  /**
   * One axis of the push, in the source's order of operations: the offset to
   * the pointer over the distance, times force, times density, subtracted.
   * It moves the coordinate by force * density / d times the offset away.
   */
  function Pushed(pos: real, offset: real, d: real, force: real, density: real): (r: real)
    requires d != 0.0
    ensures r - pos == (force * density / d) * (0.0 - offset)
  {
    pos - offset / d * force * density
  }

  /**
   * The falloff is linear and reaches 0 at the edge of the radius: within
   * eps * radius of the edge the force is below eps.
   */
  lemma ForceNearEdge(radius: real, d: real, eps: real)
    requires 0.0 <= d < radius && 0.0 < eps && radius - d < eps * radius
    ensures Force(radius, d) * radius == radius - d
    ensures Force(radius, d) < eps
  {
  }

  /** The push weakens strictly as the particle sits farther from the pointer. */
  lemma ForceDecreasing(radius: real, d1: real, d2: real)
    requires 0.0 <= d1 < d2 < radius
    ensures Force(radius, d2) < Force(radius, d1)
  {
  }

  /**
   * Inside the radius (and off the pointer) the displacement points away from
   * the pointer: its dot product with particle - pointer is positive.
   */
  lemma RepelMovesAway(b: Body, m: PointerView, d: real)
    requires 0.0 < m.radius && IsDistance(b, m, d)
    requires Repels(m, d) && 0.0 < d && 0.0 < b.density
    ensures var r := Next(b, m, d);
            (r.x - b.x) * (b.x - m.x.value) + (r.y - b.y) * (b.y - m.y.value) > 0.0
  {
    var k := Force(m.radius, d) * b.density / d;
    var ox, oy := b.x - m.x.value, b.y - m.y.value;
    PositiveProduct(Force(m.radius, d), b.density);
    assert 0.0 < k;
    PositiveProduct(k, d);
    PositiveProduct(k * d, d);
    ScaleEquality(k, d * d, ox * ox + oy * oy);
  }

  /** A repelled particle ends strictly farther from the pointer than it started. */
  lemma RepelIncreasesDistance(b: Body, m: PointerView, d: real)
    requires 0.0 < m.radius && IsDistance(b, m, d)
    requires Repels(m, d) && 0.0 < d && 0.0 < b.density
    ensures var r := Next(b, m, d);
            var ex, ey := r.x - m.x.value, r.y - m.y.value;
            ex * ex + ey * ey > d * d
  {
    var k := RepelScale(b, m, d);
    OffsetSquares(b, m, d);
    var r := Next(b, m, d);
    ScaledAway(b.x, b.y, m.x.value, m.y.value, r.x, r.y, k, d);
  }

  /** The repelled particle moves by k > 0 times its offset from the pointer. */
  lemma RepelScale(b: Body, m: PointerView, d: real) returns (k: real)
    requires 0.0 < m.radius && IsDistance(b, m, d)
    requires Repels(m, d) && 0.0 < d && 0.0 < b.density
    ensures 0.0 < k
    ensures var r := Next(b, m, d);
            r.x - b.x == k * (b.x - m.x.value) && r.y - b.y == k * (b.y - m.y.value)
  {
    var push := Force(m.radius, d) * b.density;
    PositiveProduct(Force(m.radius, d), b.density);
    PositiveQuotient(push, d);
    k := push / d;
  }

  lemma PositiveQuotient(a: real, b: real)
    requires 0.0 < a && 0.0 < b
    ensures 0.0 < a / b
  {
  }

  /**
   * A point (px, py) at distance d > 0 from (mx, my), moved to (rx, ry) by
   * k > 0 times its offset from (mx, my), ends strictly farther away.
   */
  lemma ScaledAway(px: real, py: real, mx: real, my: real, rx: real, ry: real, k: real, d: real)
    requires 0.0 < k && 0.0 < d
    requires rx - px == k * (px - mx) && ry - py == k * (py - my)
    requires d * d == (px - mx) * (px - mx) + (py - my) * (py - my)
    ensures (rx - mx) * (rx - mx) + (ry - my) * (ry - my) > d * d
  {
    var ox, oy, ex, ey, dd := px - mx, py - my, rx - mx, ry - my, d * d;
    var g := 1.0 + k;
    assert ex == g * ox && ey == g * oy;
    EqualSquares(ex, g * ox);
    EqualSquares(ey, g * oy);
    SquareOfScaled(g, ox);
    SquareOfScaled(g, oy);
    ScaleEquality(g * g, ox * ox + oy * oy, dd);
    assert ex * ex + ey * ey == (g * g) * dd;
    assert g * g == 1.0 + k * (2.0 + k);
    PositiveProduct(k, 2.0 + k);
    PositiveProduct(k * (2.0 + k), d);
    PositiveProduct(k * (2.0 + k) * d, d);
    assert (g * g) * dd == dd + k * (2.0 + k) * d * d;
    ExceedsBy(ex * ex + ey * ey, dd, k * (2.0 + k) * d * d);
  }

  /** The squared offsets from the pointer add up to the squared distance. */
  lemma OffsetSquares(b: Body, m: PointerView, d: real)
    requires Present(m) && IsDistance(b, m, d)
    ensures d * d == (b.x - m.x.value) * (b.x - m.x.value) + (b.y - m.y.value) * (b.y - m.y.value)
  {
  }

  lemma SquareOfScaled(g: real, a: real)
    ensures (g * a) * (g * a) == (g * g) * (a * a)
  {
  }

  lemma ExceedsBy(a: real, b: real, c: real)
    requires a == b + c && 0.0 < c
    ensures b < a
  {
  }

  lemma PositiveProduct(a: real, b: real)
    requires 0.0 < a && 0.0 < b
    ensures 0.0 < a * b
  {
  }

  lemma EqualSquares(a: real, b: real)
    requires a == b
    ensures a * a == b * b
  {
  }

  lemma ScaleEquality(k: real, a: real, b: real)
    requires a == b
    ensures k * a == k * b
  {
  }

  /** A particle's size, Math.random() * 2 + 1, lies in [1, 3). */
  function SizeFrom(draw: real): (s: real)
    requires 0.0 <= draw < 1.0
    ensures 1.0 <= s < 3.0
  {
    draw * 2.0 + 1.0
  }

  /** A particle's density, Math.random() * 30 + 5, lies in [5, 35), so it is positive. */
  function DensityFrom(draw: real): (s: real)
    requires 0.0 <= draw < 1.0
    ensures 5.0 <= s < 35.0
  {
    draw * 30.0 + 5.0
  }

  /** A home coordinate, Math.random() * extent, lies in [0, extent) when extent > 0. */
  function HomeCoord(draw: real, extent: real): (c: real)
    requires 0.0 <= draw < 1.0 && 0.0 <= extent
    ensures 0.0 <= c && (0.0 < extent ==> c < extent) && (extent == 0.0 ==> c == 0.0)
  {
    if 0.0 < extent then PositiveProduct(1.0 - draw, extent); draw * extent
    else draw * extent
  }
}
