# Charged particle in electromagnetic fields — simulation core

This project models the simulation core of `js/phys.js`, a browser demo. In it a point charge moves through uniform electric and magnetic fields under the Lorentz force. The model covers:

- the Lorentz acceleration `a = (q/m)(E + v × B)`, `Model.accel`;
- one classical fourth-order Runge–Kutta step over position and velocity, `RK4Integrator.integrate`;
- the particle's trail, an array of `TRAJECTORY_BUFFER + 1` positions. On every step each element is copied one slot towards the front and the new position is written into the last slot;
- the state transitions of `Model`: construction, `updateVelocity`, `restart` and `move`;
- the `Controller`: its running flag, `toggleSimulationRunning`, `update` and `resetSimulation`;
- the fixed-step scheduler in the animation callback. Each frame adds the wall-clock frame time to an accumulator. The callback then drains the accumulator in whole steps of `dt`, and moves the model once per step only while the simulation runs.

All arithmetic is over Dafny's exact `real`s, not IEEE doubles. The claims proved are therefore the structural and algebraic ones.

The modules follow the program's structure:

- `Vectors`: 3-vectors, with `Add`, `Scale`, `Cross` and `Dot`;
- `Lorentz`: the physical parameters `q, m, E, B` and `Accel`;
- `RK4`: the integrator, its stages, and exact closed forms for the zero-field and uniform-electric-field cases;
- `Trajectory`: the trail buffer;
- `ParticleModel`: the `Model` record and its transitions;
- `Control`: the controller and `initMVC`;
- `Scheduler`: the accumulator loop of `animate`.

On four points the code does something other than what a quick reading suggests. The model follows the code:

- The trail holds 2001 slots, not 2000: `initTrajectory` and `restart` both loop `i < TRAJECTORY_BUFFER + 1`.
- `restart` resets the fields, the velocity and the position, but keeps the charge `q` and the mass `m`.
- `resetSimulation` does not stop a running simulation. It restarts the model and then takes exactly one step.
- Nothing in the code refuses `m = 0`, and the mass slider's range includes 0. The model requires `m != 0` wherever it divides; see "Left out".

## Model

| member | source | states |
|---|---|---|
| Lorentz.Accel | js/phys.js:361-373 | with `B = 0` the acceleration is `(q/m)·E`, and with both fields zero it is zero |
| Lorentz.AccelIsLorentz | js/phys.js:361-373 | the per-component formulas of the source are the vector law `(q/m)·(E + v × B)` |
| Lorentz.MagneticForceDoesNoWork | js/phys.js:361-373 | with `E = 0` the acceleration is perpendicular to the velocity: their dot product is 0 |
| RK4.Integrate | js/phys.js:436-484 | a step of length `dt = 0` returns the start state unchanged. This function, together with `ComputeStages`, computes the stages `x1..x4`, `v1..v4`, `a1..a4` and their weighted sum. Its other properties are proved separately in `TranslationInvariant`, `ZeroFieldStep` and `UniformFieldStep` |
| RK4.TranslationInvariant | js/phys.js:441-481 | shifting the start position by `d` shifts the new position by `d` and leaves the new velocity unchanged, because the acceleration ignores position |
| RK4.ZeroFieldStep | js/phys.js:441-481 | with `E = B = 0` one step keeps the velocity and moves the position to exactly `pos + dt·vel` |
| RK4.UniformFieldStep | js/phys.js:441-481 | with `B = 0` and `a = (q/m)·E`, one step gives exactly `vel + dt·a` and `pos + dt·vel + (dt²/2)·a` |
| RK4.ElapsedIsProduct | js/phys.js:120-131 | `n` steps of size `dt` add up to `n·dt` |
| Trajectory.Fill | js/phys.js:351-359 | the trail has `TRAJECTORY_BUFFER + 1 = 2001` slots, each holding the given position |
| Trajectory.InitTrajectory | js/phys.js:353-359 | pushing the position 2001 times into an empty trail gives `Fill` of that position |
| Trajectory.Refill | js/phys.js:403-405 | overwriting every slot of a 2001-slot trail gives `Fill` of the new position |
| Trajectory.Shift | js/phys.js:420-424 | the length stays 2001, slot `i` takes slot `i+1`'s old position for `i < 2000`, and slot 2000 gets the new position |
| Trajectory.ShiftInPlace | js/phys.js:420-424 | the in-place loop that copies slot `i+1` into slot `i` and then writes the last slot computes `Shift` |
| Trajectory.ShiftAll | js/phys.js:420-424 | shifting in a run of positions one after another keeps the trail at 2001 slots |
| Trajectory.ShiftAllSnoc | js/phys.js:420-424 | appending one more position after a run of appends is one more `Shift` of the trail |
| Trajectory.ShiftAllFifo | js/phys.js:420-424 | after `n <= 2001` shifts the trail is the old trail without its first `n` slots, followed by the `n` new positions in order |
| ParticleModel.NewModel | js/phys.js:326-359 | a new model has `q = 1`, `m = 0.1`, zero fields, zero velocity scalars and velocity, position `(-10, 0, 0)`, and every trail slot at that position |
| ParticleModel.UpdateVelocity | js/phys.js:375-377 | the velocity becomes `(vx, vy, vz)` and nothing else changes |
| ParticleModel.Restart | js/phys.js:387-408 | the fields, the velocity scalars and the velocity become zero, the position becomes `(-10, 0, 0)`, every slot equals it, and `q`, `m` and the integrator are kept |
| ParticleModel.RestartIdempotent | js/phys.js:387-408 | restarting twice is the same as restarting once |
| ParticleModel.RestartForgets | js/phys.js:387-408 | two models with the same `q`, `m` and integrator restart to the same state |
| ParticleModel.RestartOfNewModel | js/phys.js:326-359 | restarting a new model gives the same model back |
| ParticleModel.Move | js/phys.js:410-427 | the new position and velocity are the integrator's step, the velocity scalars mirror the new velocity, `q, m, E, B` are kept, and the trail is shifted by one with the new position last |
| ParticleModel.UpdateVelocityAfterMove | js/phys.js:410-418 | after a move, `updateVelocity` changes nothing, because the scalars already mirror the velocity |
| ParticleModel.Moves | js/phys.js:410-427 | any number of moves keeps the parameters, the integrator and the trail length, and after at least one move the velocity scalars mirror the velocity |
| ParticleModel.MovesAdd | js/phys.js:410-427 | `a` moves followed by `b` moves are `a + b` moves |
| ParticleModel.MovesLast | js/phys.js:410-427 | the last of `n > 0` moves is one move from the state after `n - 1` |
| ParticleModel.MovesTrail | js/phys.js:410-427 | after any `n` moves the trail is the old trail with the `n` visited positions shifted in one after another (`ShiftAll`); for `n <= 2001` that is the old trail without its first `n` slots, followed by the visited positions in order |
| ParticleModel.StepsMatchClosedForm | js/phys.js:441-481 | iterating the uniform-acceleration step `n` times reaches `v0 + τ·a` and `x0 + τ·v0 + (τ²/2)·a`, with `τ` the elapsed time |
| ParticleModel.UniformFieldMoves | js/phys.js:410-427 | with `B = 0`, `n` moves of the model reach exactly the constant-acceleration trajectory at `τ = n·dt` |
| ParticleModel.RestIsEquilibrium | js/phys.js:410-427 | with zero fields and zero velocity, any number of moves keep the position and the zero velocity |
| Control.NewController | js/phys.js:147-150 | a new controller holds the model and is not running |
| Control.ToggleSimulationRunning | js/phys.js:231-233 | the running flag is negated and the model is kept |
| Control.ToggleTwice | js/phys.js:231-233 | toggling twice restores the controller |
| Control.Update | js/phys.js:241-243 | the new model is exactly one `Move` of the old one, and the flag, parameters and integrator are kept |
| Control.RestartThenMove | js/phys.js:387-427 | one move right after a restart changes nothing: zero fields and zero velocity keep the particle at `(-10, 0, 0)` with every slot there |
| Control.ResetSimulation | js/phys.js:235-239 | restart followed by one update equals the restarted model, with the running flag unchanged |
| Control.ResetOfNewModel | js/phys.js:235-239 | resetting a new, stopped controller gives the same controller back |
| Control.InitMVC | js/phys.js:97-112 | the initial controller is not running and holds a new model with `dt = 0.01`: the reset that `initMVC` performs leaves the new model as it was |
| Scheduler.Pending | js/phys.js:124-131 | the number of whole steps an accumulator drains is 0 exactly when it holds less than one step; otherwise at most the accumulator is used, and less than one step is left over |
| Scheduler.PendingUnique | js/phys.js:124-131 | `Pending` is the only count meeting that characterisation |
| Scheduler.PendingShift | js/phys.js:124-131 | draining `j` steps first and the remainder afterwards drains the same total |
| Scheduler.Advance | js/phys.js:124-128 | `k` ticks keep the flag; while running the model is moved exactly `k` times (`Moves(model, k)`), and while stopped it is kept as it was |
| Scheduler.Drain | js/phys.js:124-131 | the loop ends with less than one step left, after exactly `Pending` iterations, each taking `dt` off the accumulator, and the model moved that many times only if running |
| Scheduler.Frame | js/phys.js:115-131 | a frame sets the clock, leaves less than one step (never negative when the old accumulator plus the frame time was not), and the drained steps plus the rest equal the old accumulator plus the frame time |
| Scheduler.Animate | js/phys.js:115-131 | the callback's drain loop computes `Frame` |
| Scheduler.StoppedFrameKeepsController | js/phys.js:124-131 | while stopped, a frame leaves the controller as it was and still drains the accumulator below one step; any mass is admitted, zero included, since no step divides by it |
| Scheduler.InitialSession | js/phys.js:11-12 | before the first frame the accumulator is 0, the controller is not running, and the particle is at `(-10, 0, 0)` |
| Scheduler.FrameTwice | js/phys.js:115-131 | frames at `t1 <= t2` end where a single frame at `t2` ends |
| Scheduler.Frames | js/phys.js:115-138 | a run of frames keeps the running flag and ends at the last frame's timestamp |
| Scheduler.FramesCollapse | js/phys.js:115-138 | any run of frames at non-decreasing times ends where one frame at the last time ends |
| Scheduler.NoCatchUp | js/phys.js:120-131 | with less than one step pending, a frame's drained time is below its own duration plus one step, so time spent stopped is not made up after resuming |

## Left out

- The Three.js scene, the `View` geometry and arrows (js/phys.js:28-94, 248-323). `view.update`, `setElectricField` and `setMagneticField` only draw, so the model omits them.
- The dat.GUI panel in `addDatGUI` (js/phys.js:154-229). The model does not model the sliders that change `q`, `m`, `E`, `B` and `vx..vz` between frames, nor their bounds. Their effect is captured by building a `Model` with any values.
- The clock and `requestAnimationFrame`: `getTimeInSeconds` is replaced by the `newTime` parameter of `Frame`/`Animate`.
- The `blur`/`focus` handlers (js/phys.js:15-21). They write a global `isRunning`, never the controller's flag.
- IEEE-754 rounding, overflow, NaN and Infinity. Accumulator drift from repeatedly subtracting a binary `0.01` is not modelled either.
- Lorentz.Accel: requires `m != 0`. The code divides by `m` with no check, and the slider allows 0, so in JavaScript such a step produces Infinity or NaN. The members that step the model require it too: through `Steppable` from `ParticleModel.Move` to `Control.Update`, and directly in `Control.ResetSimulation`, `Control.RestartThenMove` and `Control.UpdateAfterRestart`. The scheduler asks for it only while the simulation runs (`Scheduler.Tickable`): a stopped frame never divides, so it is admitted with `m = 0`.
- Scheduler.Frame: requires `dt > 0`. With `dt <= 0` the code's drain loop would never end once the accumulator reaches `dt`, and `initMVC` always uses `0.01`.
- RK4 accuracy and convergence order. Only the exact zero-field and uniform-electric-field cases are proved; no claim is made about general `B`.
- `Model.updateElectricField` and `updateMagneticField` (js/phys.js:379-385). They only forward the fields to the view.
