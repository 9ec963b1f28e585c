# Particle field: a verified model of the simulation core

The repository is a canvas particle demo (`src/main.ts`). Particles rest at
fixed home positions. A pointer (mouse or first touch point) within an
influence radius pushes them away, and they drift back home when it leaves.
This project models the stateful core of that file in Dafny, over real
numbers:

- the shared pointer record (`mouse`) and the effect of its event handlers
  (module `Pointer`, class `Mouse`);
- `Particle`: construction, `update` and `returnHome` (module `Particles`),
  proved against the specification functions of module `Physics`;
- `init`, the update loop of `animate`, startup and the resize handler
  (module `Simulation`, class `Field`);
- what repeated homing does over many frames (module `Homing`);
- the zero-distance defect of `update`, as written over JavaScript numbers,
  next to the guarded rule the rest of the model uses (module `NumberModel`).

`Math.sqrt` becomes a distance argument `d` with `0 <= d` and
`d * d == dx * dx + dy * dy` (`Physics.IsDistance`). `Math.random` becomes
caller-supplied draws in `[0, 1)` (`Simulation.Draws`, one record per particle
in call order). Window and canvas sizes are arguments.

## Model

| member | source | states |
|---|---|---|
| `Pointer.Mouse.constructor` | src/main.ts:17-21 | at startup both coordinates are undefined and the radius is 150 |
| `Pointer.Mouse.OnMouseMove` | src/main.ts:26-29 | a mouse move sets both coordinates to the event's and leaves the radius alone; set-both-or-neither and a positive radius are preserved |
| `Pointer.Mouse.OnTouch` | src/main.ts:32-44 | touchstart/touchmove set both coordinates to the first touch point; with no touch points nothing changes |
| `Pointer.Mouse.OnEnd` | src/main.ts:47-53 | touchend and mouseout clear both coordinates and keep the radius |
| `Particles.Particle.constructor` | src/main.ts:65-71 | a new particle sits at its home; its size is `2r+1` and its density `30r+5` for its two draws |
| `Particles.Particle.Update` | src/main.ts:88-111 | one frame writes only `x` and `y`, and the new state is `Physics.Next` of the old state, the pointer and the distance |
| `Particles.Particle.ReturnHome` | src/main.ts:114-123 | one homing frame writes only `x` and `y`, and the new state is `Physics.Home` of the old |
| `Physics.Force` | src/main.ts:95-98 | for `0 <= d < radius` the force lies in `(0, 1]`, and it is 1 exactly at `d == 0` |
| `Physics.Pushed` | src/main.ts:96-104 | one axis of the push, in the source's order of operations, moves the coordinate by `force * density / d` times its offset away from the pointer |
| `Physics.ForceNearEdge` | src/main.ts:98 | the falloff is linear, `force * radius == radius - d`, so the force drops below any `eps > 0` within `eps * radius` of the edge: it reaches 0 at the radius |
| `Physics.ForceDecreasing` | src/main.ts:98 | the force strictly decreases as the distance grows |
| `Physics.HomeAxis` | src/main.ts:115-122 | one homing step leaves exactly 14/15 of the gap to home; an axis at home stays there |
| `Physics.Home` | src/main.ts:114-123 | returnHome keeps home and density and scales each axis's gap by 14/15 |
| `Physics.Next` | src/main.ts:88-111 | home and density never change. Without both pointer coordinates, or with `d >= radius`, the frame is exactly `Home`. Inside the radius the displacement is `force*density/d` times `(particle - pointer)`. At `d == 0` the particle stays put (the added guard) |
| `Physics.RepelMovesAway` | src/main.ts:91-104 | inside the radius with `d > 0` and positive density, the displacement has a positive dot product with `particle - pointer` |
| `Physics.RepelIncreasesDistance` | src/main.ts:91-104 | in the same case the particle ends strictly farther from the pointer than `d` |
| `Physics.SizeFrom` | src/main.ts:70 | a size drawn from `[0,1)` lies in `[1, 3)` |
| `Physics.DensityFrom` | src/main.ts:71 | a density drawn from `[0,1)` lies in `[5, 35)`, so it is positive |
| `Physics.HomeCoord` | src/main.ts:138-139 | a home coordinate lies in `[0, extent)` when the extent is positive, and is 0 on an empty extent |
| `Homing.Settle` | src/main.ts:114-123 | any number of homing frames leaves home and density unchanged |
| `Homing.SettleGap` | src/main.ts:114-123 | after `n` homing frames each axis's gap is the original gap times `(14/15)^n` |
| `Homing.SettleAtHome` | src/main.ts:115-122 | a particle at home stays exactly there for any number of homing frames |
| `Homing.SettleMonotone` | src/main.ts:114-123 | the absolute gap on each axis never grows from one homing frame to a later one |
| `Homing.SettleWithin` | src/main.ts:114-123 | for any tolerance `eps > 0` some finite number of homing frames brings both axes within `eps` of home |
| `Simulation.SizingMonotone` | src/main.ts:133-135 | a wider window never gets fewer particles or a smaller influence radius |
| `Simulation.Field.constructor` | src/main.ts:155-156 | startup stores the canvas size, creates the pointer record with no position, and runs init |
| `Simulation.Field.Init` | src/main.ts:129-142 | below width 768: 1200 particles and radius 100, otherwise 2500 and 170. Every particle is new, and none of the old array survives. Particle `i` is built from draw `i`, with home in `[0,width) x [0,height)`, position at home, size in `[1,3)` and density in `[5,35)`. The pointer coordinates are kept |
| `Simulation.Field.Animate` | src/main.ts:148-151 | every particle in the array takes exactly one `Physics.Next` frame; the array itself and the pointer are unchanged, so the population and radius that init chose for the width still hold |
| `Simulation.Field.OnResize` | src/main.ts:160-164 | a resize stores the new canvas size and re-runs init for it |
| `NumberModel.CoincidentPointerGivesNaN` | src/main.ts:93-104 | as written, a pointer exactly on a finite particle inside the radius makes both coordinates NaN |
| `NumberModel.NaNStaysNaN` | src/main.ts:88-123 | as written, a NaN coordinate is still NaN after one more frame, whatever the pointer does |
| `NumberModel.NaNPersists` | src/main.ts:88-123 | as written, a NaN coordinate stays NaN through any sequence of later frames |
| `NumberModel.GuardedAgreesWithModel` | src/main.ts:93-104 | with the zero-distance guard, update on finite numbers equals `Physics.Next`, so positions stay finite on every frame |

## Left out

- Drawing: `draw`, the translucent `fillRect` and `requestAnimationFrame` (src/main.ts:80-86, 145-146, 152) only paint; `Animate` models the update loop alone.
- Colour: the three hue/saturation/lightness draws and the HSL string (src/main.ts:74-77) are cosmetic, so `Draws` carries no colour draws.
- DOM wiring: canvas lookup, window sizing and `addEventListener` (src/main.ts:4-8, 26-53, 160-164) are I/O. Only their effect on the pointer record, the canvas size and the particle array is modelled.
- `Math.random` and `Math.sqrt` are not implemented. Their results are arguments with the properties the code relies on.
- Floating point: rounding and overflow are idealised away by `real`. NaN is modelled only in `NumberModel`, for the zero-distance defect.
- NumberModel.Div: Infinity is not modelled. A non-zero value divided by zero is excluded by its precondition, which update never violates, since a zero distance has zero offsets.
- `init` reads `window.innerWidth` for the size class and `canvas.width` for the homes. Every call site sets the two equal, so the model uses the canvas width for both.
- The startup call `animate()` and the frame loop itself are host-driven; `Animate` is one frame.
- Physics.Next: the code as written makes the position NaN at distance 0 (see Findings). The model instead leaves the particle in place for that frame.

## Findings

| source | as written | input that shows it | evidently intended | confidence | as-written member | corrected member |
|---|---|---|---|---|---|---|
| src/main.ts:96-97 | `dx / distance` and `dy / distance` have no guard. At distance 0 they compute 0/0 = NaN, and the NaN reaches `x` and `y`. Afterwards `NaN !== baseX` keeps it in the homing arithmetic, and every later distance is NaN. The particle is lost for good | the pointer exactly on a particle's position, e.g. a touch landing on a resting particle at its home, with any radius > 0 | with no direction to push along, the particle is not displaced for that frame; positions stay finite (`NumberModel.GuardedAgreesWithModel`) | proved on the model, not executed | `NumberModel.CoincidentPointerGivesNaN` | `Physics.Next` |
