# Diwali scene: particle and state-machine core in Dafny

This project models the per-frame code behind four effects of the Diwali night scene:

- **Firecracker**: a rocket on a 4-unit cycle of local time (clock plus a per-instance
  delay). It rises while recording a 30-point trail. It then bursts into 100 particles
  that fly on a velocity table drawn once at construction, with gravity 0.005 per frame,
  fade over 2 units after the burst, and are then zeroed.
- **Flame sparkles**: a recycling emitter of 50 particles with ceiling 4.
- **Balloon exhaust**: the same emitter with 30 particles and ceiling 1.5. The balloon's
  own pose sways on sines of local time along a slow climb. A height above 18 is shown
  as -5, and since the height is recomputed from the clock every frame, the balloon sits
  at -5 for good once the steady climb term time·0.12·speed passes 15.4.
- **Galaxy**: a one-shot generator that fills three layers of 5000 points on a
  three-armed spiral, plus their colours. Afterwards frames only turn the layers.

Modules, one per file:

| module | file | contents |
|---|---|---|
| `Vectors` | `vectors.dfy` | `Vec3` and the flat-buffer view `At`/`Flatten` |
| `Emitter` | `emitter.dfy` | the recycling emitter, as a `Config` of constants and an `Emitter` class |
| `Flame` | `flame.dfy` | the emitter with the flame's constants |
| `HotAirBalloon` | `balloon.dfy` | the balloon pose and its exhaust emitter |
| `Firecracker` | `firecracker.dfy` | the rocket/burst state machine |
| `Galaxy` | `galaxy.dfy` | the generator and the rotations |

`Vectors` also holds the sample and wave predicates and the bounded-product helpers.

How the environment is represented:

- `Math.random()` results are caller-supplied sequences of reals in [0, 1).
- `Math.sin` and `Math.cos` are caller-supplied functions bounded by [-1, 1] (`Wave`).
- The clock reading is a method parameter.
- Buffers the source mutates in place are arrays, held in `const` fields of the classes.
- Each in-place method is proved against a function on sequences:
  - `Emitter.Frame` for the emitters;
  - `Firecracker.Step` over a `Snapshot` value for the firecracker;
  - `Galaxy.Point` for the generator.
- The properties are proved about those functions.

The firecracker's exploded flag is cleared only inside the branch that runs when the
rocket is *not* exploded (src/components/Firecracker.jsx:67, 101). So a firecracker
bursts once and never re-arms; `Firecracker.NeverRearms` states this. The reset branch
only puts the rocket back at its base height while it is still unexploded. For example,
after a burst at local time 2.05, the frame at local time 4.05 (cycle time 0.05) does not
run the rocket branch: the rocket neither rises nor records its trail again.

`time % 4` in JavaScript truncates toward zero. A frame reaches it only with time >= 0,
so it equals the floored remainder that `Firecracker.CycleTime` uses.

## Model

| member | source | states |
|---|---|---|
| Emitter.InitialPosition | src/components/Flame.jsx:18-20 | a spawned particle has x, z in [-w/2, w/2) for spawn width w and y in [0, spawn height) |
| Emitter.InitialVelocity | src/components/Flame.jsx:22-26 | velocity x, z in [-d/2, d/2) for drift width d; velocity y in [riseMin, riseMin + riseRange), so always upward |
| Emitter.Respawn | src/components/Flame.jsx:69-73 | a recycled particle is on the ground (y = 0), with x, z within half the respawn width |
| Emitter.MoveParticle | src/components/Flame.jsx:62-73 | particle moves by its velocity unless that passes the ceiling, else respawns; result never above the ceiling; not below ground if start and velocity are not |
| Emitter.Frame | src/components/Flame.jsx:61-74 | the buffer after a frame has the same length, and each particle i is MoveParticle of its old position and velocity i |
| Emitter.FrameInBand | src/components/Flame.jsx:61-74 | after any frame every particle is at or under the ceiling; a grounded buffer with rising velocities stays grounded |
| Emitter.RunInBand | src/components/Flame.jsx:57-77 | over any sequence of frames a grounded buffer with rising velocities stays grounded, and after at least one frame none is above the ceiling |
| Emitter.InitialBuffer | src/components/Flame.jsx:17-20 | the constructed buffer has 3·count entries, every particle is InitialPosition of its samples, and none is below ground |
| Emitter.InitialVelocities | src/components/Flame.jsx:22-26 | the constructed table has count entries, each InitialVelocity of its samples, all rising |
| Emitter.SpawnedRunInBand | src/components/Flame.jsx:13-77 | from construction through any frames no particle is below ground; after one frame none is above the ceiling |
| Emitter.Spawn | src/components/Flame.jsx:13-30 | the construction loop leaves exactly InitialBuffer in a fresh array and InitialVelocities in the table |
| Emitter.Emitter.constructor | src/components/Flame.jsx:13-30 | a new emitter owns a fresh buffer holding the spawned particles and table, and is valid: right lengths, grounded, rising |
| Emitter.Emitter.AdvanceParticle | src/components/Flame.jsx:62-73 | the loop body sets particle i to MoveParticle of its old value; entries outside 3i..3i+2 are untouched |
| Emitter.Emitter.Advance | src/components/Flame.jsx:58-77 | the in-place loop leaves Frame of the old buffer; the emitter stays valid and every particle is under the ceiling |
| Flame.Flame.constructor | src/components/Flame.jsx:12-30 | fresh buffer holding InitialBuffer and table InitialVelocities of the samples: 150 entries and 50 velocities; x, z in [-0.25, 0.25), y in [0, 2); velocity x, z in [-0.01, 0.01), y in [0.02, 0.07) |
| Flame.Flame.Frame | src/components/Flame.jsx:57-77 | a frame is Frame of the old buffer and leaves every spark height in [0, 4] |
| Flame.SparkStep | src/components/Flame.jsx:64-73 | a spark moves by its velocity when that stays at or under 4, else restarts at height 0 with x, z in [-0.15, 0.15) |
| Flame.SparksStayInBand | src/components/Flame.jsx:13-77 | from construction through any non-empty sequence of frames every spark height is in [0, 4] |
| HotAirBalloon.Float | src/components/HotAirBalloon.jsx:36-46 | the pose at a local time: height is the climb formula when that is at most 18, else -5; never above 18; at least -5 for non-negative time and speed; x within base ± 0.6, z within base ± 0.3, rotation z within ± 0.12 |
| HotAirBalloon.Balloon.constructor | src/components/HotAirBalloon.jsx:13-30 | pose at the configured position, untilted; fresh exhaust holding InitialBuffer and InitialVelocities: 90 entries and 30 velocities; x, z in [-0.1, 0.1), y in [0, 0.5); velocity x, z in [-0.005, 0.005), y in [0.02, 0.05) |
| HotAirBalloon.StaysDown | src/components/HotAirBalloon.jsx:36-46 | once time·0.12·speed exceeds 15.4, the height is -5 on every frame |
| HotAirBalloon.StaysUp | src/components/HotAirBalloon.jsx:36-46 | while time·0.12·speed is below 14.6, the height is never replaced and equals the climb formula |
| HotAirBalloon.Balloon.Drift | src/components/HotAirBalloon.jsx:36-46 | assigning y, x, z and the tilt, then replacing a height above 18 by -5, leaves exactly the pose Float gives at that local time |
| HotAirBalloon.Balloon.Frame | src/components/HotAirBalloon.jsx:32-75 | the pose becomes Float at clock + delay; the exhaust becomes Frame of its old buffer; every exhaust height is in [0, 1.5] |
| HotAirBalloon.ExhaustStep | src/components/HotAirBalloon.jsx:61-70 | an exhaust particle moves by its velocity when that stays at or under 1.5, else restarts at height 0 with x, z in [-0.1, 0.1) |
| HotAirBalloon.ExhaustStaysInBand | src/components/HotAirBalloon.jsx:13-75 | from construction through any non-empty sequence of frames every exhaust height is in [0, 1.5] |
| Firecracker.CycleTime | src/components/Firecracker.jsx:68 | the cycle time of a non-negative local time is in [0, 4), at most the time, and equal to it below 4 |
| Firecracker.CyclePeriodic | src/components/Firecracker.jsx:68 | the cycle time repeats every 4 units |
| Firecracker.BurstVelocity | src/components/Firecracker.jsx:29-37 | every component of a burst velocity lies in (-0.2, 0.2) |
| Firecracker.DrawVelocities | src/components/Firecracker.jsx:23-37 | the construction loop draws 100 velocities, velocity i from samples 3i, 3i+1, 3i+2 |
| Firecracker.RecordTrail | src/components/Firecracker.jsx:78-85 | trail keeps its length; slot 0 becomes the new point; slot i becomes old slot i-1 |
| Firecracker.ReversedAt | src/components/Firecracker.jsx:78-85 | the newest-first order used by the trail lemmas: slot i of the reversed points is original point \|ps\| - 1 - i |
| Firecracker.TrailHistory | src/components/Firecracker.jsx:76-87 | after recording m points, the trail holds them newest first, then the newest 30 - m points it held before; its m oldest points are pushed out |
| Firecracker.TrailFull | src/components/Firecracker.jsx:76-87 | thirty recordings leave exactly those thirty points, newest first |
| Firecracker.Burst | src/components/Firecracker.jsx:117-122 | a flight frame keeps 300 entries and moves each particle by its own velocity, with 0.005 off y |
| Firecracker.FlyStep | src/components/Firecracker.jsx:117-122 | one more flight frame moves particle i once, by its own velocity and gravity |
| Firecracker.FlyEachParticle | src/components/Firecracker.jsx:117-122 | n frames of the whole burst buffer leave particle i where n frames of flying it alone would |
| Firecracker.StraightLine | src/components/Firecracker.jsx:117-122 | a particle flown alone from the origin for n frames is at n·(vx, vy - 0.005, vz) |
| Firecracker.FlightIsLinear | src/components/Firecracker.jsx:117-122 | from the zeroed buffer, after n flight frames particle i is at n·(vx, vy - 0.005, vz) |
| Firecracker.Step | src/components/Firecracker.jsx:61-139 | a frame keeps the buffer sizes; negative local time changes nothing; an exploded firecracker keeps flag, burst time, rocket and trail; the trail changes only on a rising frame |
| Firecracker.RisingFrame | src/components/Firecracker.jsx:67-87 | rising frame: rocket y = baseY + 4·cycle time, in [baseY, baseY + 8), visible; trail records (0, y - 0.3, 0); burst untouched |
| Firecracker.TriggerFrame | src/components/Firecracker.jsx:88-97 | trigger frame: exploded, burst time = now, rocket hidden and not moved, trail kept, origin = rocket position; first flight frame at opacity 1 and size 0.15 |
| Firecracker.DeadZoneFrame | src/components/Firecracker.jsx:98-106 | unexploded with cycle time in [2.1, 3.5]: the frame changes nothing |
| Firecracker.ResetFrame | src/components/Firecracker.jsx:98-106 | unexploded with cycle time above 3.5: only the rocket height goes back to baseY |
| Firecracker.FadeFrame | src/components/Firecracker.jsx:110-129 | within 2 units of the burst: burst visible, every particle flies once; opacity = max(0, 1 - d/2) in (0, 1]; size = 0.15·(1 + d) in [0.15, 0.45) |
| Firecracker.ClearedFrame | src/components/Firecracker.jsx:130-137 | from 2 units after the burst: burst hidden, all 300 entries 0, opacity and size kept |
| Firecracker.NeverRearms | src/components/Firecracker.jsx:67-107 | once exploded, through any later frames, it stays exploded with the same burst time, rocket state and trail |
| Firecracker.Firecracker.constructor | src/components/Firecracker.jsx:16-59 | starts with fresh trail and burst arrays, unexploded with zeroed trail and burst, burst hidden, opacity 1, size 0.15; velocity i drawn from its three samples |
| Firecracker.Firecracker.RecordRocket | src/components/Firecracker.jsx:78-85 | the descending shift loop leaves RecordTrail of the old trail |
| Firecracker.Firecracker.Fling | src/components/Firecracker.jsx:117-122 | the flight loop leaves Burst of the old buffer |
| Firecracker.Firecracker.Clear | src/components/Firecracker.jsx:133-136 | the reset loop leaves all 300 entries 0 |
| Firecracker.Firecracker.Frame | src/components/Firecracker.jsx:61-139 | one frame at clock c takes the firecracker's state to Step of the old state at local time c + delay |
| Galaxy.Radius | src/components/Galaxy.jsx:45 | the radius drawn for a particle is in [0, 50) |
| Galaxy.BranchAngle | src/components/Galaxy.jsx:47 | a particle's arm angle is one of 0, 2π/3, 4π/3 |
| Galaxy.ArmsRepeat | src/components/Galaxy.jsx:47 | particles whose indices differ by a multiple of 3 share their arm |
| Galaxy.ThreeArms | src/components/Galaxy.jsx:41-47 | the 5000 particles lie on exactly three arm angles |
| Galaxy.Point | src/components/Galaxy.jsx:50-53 | a point is within half the spread of its arm point horizontally, within half the thickness vertically, and inside the layer's box |
| Galaxy.OuterBox | src/components/Galaxy.jsx:50-53 | every outer point has height in [-5, 5) and lies within 2.5 in x and z of its arm point cos/sin(angle)·radius |
| Galaxy.MiddleBox | src/components/Galaxy.jsx:61-64 | every middle point has height in [-4, 4) and lies within 2 in x and z of its arm point cos/sin(angle)·radius·0.8 |
| Galaxy.CoreBox | src/components/Galaxy.jsx:72-75 | every core point has height in [-3, 3) and lies within 1.5 in x and z of its arm point cos/sin(angle)·radius·0.6 |
| Galaxy.Place | src/components/Galaxy.jsx:49-58 | writing particle i extends a layer filled up to i to one filled up to i + 1, and leaves every entry outside 3i..3i+2 of both arrays as it was |
| Galaxy.Generate | src/components/Galaxy.jsx:14-91 | six fresh arrays of 15000 entries; particle i is Point of the shared radius and its layer's samples; colour i is palette[i mod length] |
| Galaxy.Turn | src/components/Galaxy.jsx:94-115 | group turn 0.05t; layer turns 0.02t, 0.03t, 0.04t; every layer tilt within ± 0.1 |
| Galaxy.Galaxy.constructor | src/components/Galaxy.jsx:14-91 | the galaxy owns six fresh arrays holding the generated points and colours, unrotated |
| Galaxy.Galaxy.Frame | src/components/Galaxy.jsx:94-115 | a frame sets the rotations to Turn of the clock and leaves all six arrays unchanged |

## Left out

- Colour handling is not modelled: `THREE.Color` hex parsing and the `offsetHSL` colour jitter of the burst particles. Palettes are given RGB triples. The burst colour buffer and its two random draws per particle are left out.
- Per-frame respawn samples: the source draws two random numbers only when a particle respawns. The model gives every particle two samples per frame and uses them only on respawn. Samples are arbitrary values in [0, 1), so every source outcome is a model outcome.
- Float32Array precision: positions are unbounded reals, so rounding to single precision is not modelled.
- Trigonometry and randomness are inputs. Their only assumed property is the range.
- Cosmetic animation is not modelled: the flame and burner flicker and glow scaling, the diya flame cones, the glow spheres, the point light, and `createCircleTexture`.
- The rendering tree is not part of this model: React refs that might be unset, `needsUpdate` flags, and the scene composition.
- Diya.jsx, App.jsx, SceneControls.jsx and CameraAnimation.jsx are not part of this model.
