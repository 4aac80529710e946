/** The particle model, `Model` in the source: physical parameters, the
    slider-facing velocity scalars `vx, vy, vz`, the state vectors `pos` and
    `vel`, the trail, and the integrator it steps with. The source mutates one
    object in place; here each operation returns the next model. */
module ParticleModel {
  import opened Vectors
  import opened Lorentz
  import opened RK4
  import opened Trajectory

  datatype Model = Model(
    params: Params,
    vx: real, vy: real, vz: real,
    pos: Vec3,
    vel: Vec3,
    trajectory: seq<Vec3>,
    integrator: RK4Integrator)

  /** The starting and restart position of the particle. */
  const Home: Vec3 := Vec3(-10.0, 0.0, 0.0)

  /** The velocity vector agrees with the three velocity scalars. */
  predicate Synced(model: Model) {
    model.vel == Vec3(model.vx, model.vy, model.vz)
  }

  /** What stepping needs: a nonzero mass for the division in the
      acceleration, and a trail of the full size. */
  predicate Steppable(model: Model) {
    model.params.m != 0.0 && |model.trajectory| == Slots
  }

  /** A freshly constructed model: no fields, unit charge, mass 0.1, at rest at
      `Home`, every trail slot at `Home`. The source attaches the integrator
      right after construction; here it is passed in. */
  function NewModel(integrator: RK4Integrator): (r: Model)
    ensures r.params == Params(1.0, 0.1, Zero, Zero)
    ensures r.pos == Home && r.vel == Zero && Synced(r)
    ensures |r.trajectory| == Slots
    ensures forall i :: 0 <= i < Slots ==> r.trajectory[i] == Home
    ensures r.integrator == integrator
    ensures Steppable(r)
  {
    Model(Params(1.0, 0.1, Zero, Zero), 0.0, 0.0, 0.0, Home,
          Vec3(0.0, 0.0, 0.0), Fill(Home), integrator)
  }

  /** Copies the velocity scalars into the velocity vector, as after a slider
      change; nothing else changes. */
  function UpdateVelocity(model: Model): (r: Model)
    ensures Synced(r)
    ensures r.vx == model.vx && r.vy == model.vy && r.vz == model.vz
    ensures r.(vel := model.vel) == model
  {
    model.(vel := Vec3(model.vx, model.vy, model.vz))
  }

  /** Zeroes both fields and the velocity, puts the particle back at `Home`
      and fills the whole trail with that position. Charge, mass and the
      integrator are kept. */
  function Restart(model: Model): (r: Model)
    ensures r.params == Params(model.params.q, model.params.m, Zero, Zero)
    ensures r.vx == 0.0 && r.vy == 0.0 && r.vz == 0.0
    ensures r.vel == Zero && Synced(r)
    ensures r.pos == Home
    ensures |r.trajectory| == Slots
    ensures forall i :: 0 <= i < Slots ==> r.trajectory[i] == r.pos
    ensures r.integrator == model.integrator
  {
    var reset := model.(params := model.params.(E := Zero, B := Zero),
                        vx := 0.0, vy := 0.0, vz := 0.0);
    var pos := Home;
    reset.(pos := pos, vel := Vec3(reset.vx, reset.vy, reset.vz), trajectory := Fill(pos))
  }

  /** One simulation step: commit the integrator's result, mirror the new
      velocity into the scalars, and push the new position onto the trail. */
  function Move(model: Model): (r: Model)
    requires Steppable(model)
    ensures PhaseState(r.pos, r.vel)
         == Integrate(model.integrator, model.params, model.pos, model.vel)
    ensures Synced(r)
    ensures r.params == model.params && r.integrator == model.integrator
    ensures |r.trajectory| == Slots
    ensures forall i :: 0 <= i < Buffer ==> r.trajectory[i] == model.trajectory[i + 1]
    ensures r.trajectory[Buffer] == r.pos
    ensures Steppable(r)
  {
    var state := Integrate(model.integrator, model.params, model.pos, model.vel);
    var pos := state.pos;
    var vel := state.vel;
    model.(pos := pos, vel := vel, vx := vel.x, vy := vel.y, vz := vel.z,
           trajectory := Shift(model.trajectory, pos))
  }

  /** `n` consecutive steps. */
  function Moves(model: Model, n: nat): (r: Model)
    requires Steppable(model)
    ensures Steppable(r)
    ensures r.params == model.params && r.integrator == model.integrator
    ensures n > 0 ==> Synced(r)
    decreases n
  {
    if n == 0 then model else Moves(Move(model), n - 1)
  }

  /** The positions visited by `n` steps, in order. */
  function Visited(model: Model, n: nat): (ps: seq<Vec3>)
    requires Steppable(model)
    ensures |ps| == n
  {
    if n == 0 then [] else Visited(model, n - 1) + [Moves(model, n).pos]
  }

  /** Restarting twice is restarting once. */
  lemma RestartIdempotent(model: Model)
    ensures Restart(Restart(model)) == Restart(model)
  {
  }

  /** Restarting a freshly constructed model gives that same model back: the
      restart values coincide with the construction defaults because restart
      keeps the constructor's charge and mass. */
  lemma RestartOfNewModel(integrator: RK4Integrator)
    ensures Restart(NewModel(integrator)) == NewModel(integrator)
  {
  }

  /** A restarted model forgets everything except charge, mass and integrator. */
  lemma RestartForgets(a: Model, b: Model)
    requires a.params.q == b.params.q && a.params.m == b.params.m
    requires a.integrator == b.integrator
    ensures Restart(a) == Restart(b)
  {
  }

  /** Steps keep the velocity scalars in sync, so the slider hook that copies
      them back into the velocity vector is then a no-op. */
  lemma UpdateVelocityAfterMove(model: Model)
    requires Steppable(model)
    ensures UpdateVelocity(Move(model)) == Move(model)
  {
  }

  /** Steps compose: `a` steps then `b` steps is `a + b` steps. */
  lemma {:induction false} MovesAdd(model: Model, a: nat, b: nat)
    requires Steppable(model)
    ensures Moves(Moves(model, a), b) == Moves(model, a + b)
    decreases a
  {
    if a > 0 {
      MovesAdd(Move(model), a - 1, b);
    }
  }

  /** The last of `n > 0` steps is one step from the state after `n - 1`. */
  lemma MovesLast(model: Model, n: nat)
    requires Steppable(model) && n > 0
    ensures Moves(model, n) == Move(Moves(model, n - 1))
  {
    MovesAdd(model, n - 1, 1);
  }

  /** The trail after `n` steps is the old trail with the `n` visited
      positions appended one at a time; for `n <= Slots` that is the
      unevicted tail of the old trail followed by the visited positions,
      oldest first. */
  lemma {:induction false} MovesTrail(model: Model, n: nat)
    requires Steppable(model)
    ensures Moves(model, n).trajectory == ShiftAll(model.trajectory, Visited(model, n))
    ensures n <= Slots ==> Moves(model, n).trajectory == model.trajectory[n..] + Visited(model, n)
  {
    if n > 0 {
      MovesTrail(model, n - 1);
      MovesLast(model, n);
      var cur := Moves(model, n);
      assert cur.trajectory == Shift(Moves(model, n - 1).trajectory, cur.pos);
      ShiftAllSnoc(model.trajectory, Visited(model, n - 1), cur.pos);
    }
    if n <= Slots {
      ShiftAllFifo(model.trajectory, Visited(model, n));
    }
  }

  /** Velocity after `n` steps of size `dt` under the constant acceleration
      `a`, each step adding `dt·a`. */
  function VelAt(v0: Vec3, a: Vec3, dt: real, n: nat): Vec3 {
    if n == 0 then v0 else Add(VelAt(v0, a, dt, n - 1), Scale(dt, a))
  }

  /** Position after `n` steps of size `dt`, each a `Drift` from the velocity
      at the start of the step. */
  function PosAt(x0: Vec3, v0: Vec3, a: Vec3, dt: real, n: nat): Vec3 {
    if n == 0 then x0
    else Drift(PosAt(x0, v0, a, dt, n - 1), VelAt(v0, a, dt, n - 1), a, dt)
  }

  /** Step-by-step accumulation agrees with the closed form of uniformly
      accelerated motion after the elapsed time `tau`. */
  lemma {:induction false} StepsMatchClosedForm(x0: Vec3, v0: Vec3, a: Vec3, dt: real, n: nat, tau: real)
    requires tau == Elapsed(dt, n)
    ensures VelAt(v0, a, dt, n) == Add(v0, Scale(tau, a))
    ensures PosAt(x0, v0, a, dt, n) == Drift(x0, v0, a, tau)
  {
    if n == 0 {
      assert Scale(0.0, a) == Zero;
      assert Scale(0.0, v0) == Zero;
    } else {
      var s := Elapsed(dt, n - 1);
      StepsMatchClosedForm(x0, v0, a, dt, n - 1, s);
      UniformStepAlgebra(x0, v0, a, s, dt, tau);
    }
  }

  /** Under a constant acceleration `a` the model's steps follow the
      step-by-step recurrence of `VelAt` and `PosAt`. */
  lemma {:induction false} UniformFieldRecurrence(model: Model, n: nat, a: Vec3, dt: real)
    requires Steppable(model)
    requires model.params.B == Zero
    requires a == Scale(model.params.q / model.params.m, model.params.E)
    requires dt == model.integrator.dt
    ensures Moves(model, n).vel == VelAt(model.vel, a, dt, n)
    ensures Moves(model, n).pos == PosAt(model.pos, model.vel, a, dt, n)
  {
    if n > 0 {
      UniformFieldRecurrence(model, n - 1, a, dt);
      MovesLast(model, n);
      MoveUniform(Moves(model, n - 1), a, dt);
    }
  }

  /** With no magnetic field the acceleration `a = (q/m)·E` is constant and
      `n` steps reproduce uniformly accelerated motion exactly: after the
      simulated time `tau = n·dt`, vel = vel0 + tau·a and
      pos = pos0 + tau·vel0 + (tau²/2)·a. */
  lemma UniformFieldMoves(model: Model, n: nat, tau: real)
    requires Steppable(model)
    requires model.params.B == Zero
    requires tau == n as real * model.integrator.dt
    ensures var a := Scale(model.params.q / model.params.m, model.params.E);
            && Moves(model, n).vel == Add(model.vel, Scale(tau, a))
            && Moves(model, n).pos == Drift(model.pos, model.vel, a, tau)
  {
    var a := Scale(model.params.q / model.params.m, model.params.E);
    var dt := model.integrator.dt;
    UniformFieldRecurrence(model, n, a, dt);
    ElapsedIsProduct(model.integrator.dt, n);
    StepsMatchClosedForm(model.pos, model.vel, a, dt, n, tau);
  }

  /** One step of `UniformFieldRecurrence`, stated on the model. */
  lemma MoveUniform(model: Model, a: Vec3, dt: real)
    requires Steppable(model)
    requires model.params.B == Zero
    requires a == Scale(model.params.q / model.params.m, model.params.E)
    requires dt == model.integrator.dt
    ensures Move(model).vel == Add(model.vel, Scale(dt, a))
    ensures Move(model).pos == Drift(model.pos, model.vel, a, dt)
  {
    UniformFieldStep(model.integrator, model.params, model.pos, model.vel, a);
  }

  /** The per-step algebra behind `UniformFieldMoves`. */
  lemma UniformStepAlgebra(x: Vec3, v: Vec3, a: Vec3, s: real, dt: real, tau: real)
    requires tau == s + dt
    ensures Add(Add(v, Scale(s, a)), Scale(dt, a)) == Add(v, Scale(tau, a))
    ensures Drift(Drift(x, v, a, s), Add(v, Scale(s, a)), a, dt) == Drift(x, v, a, tau)
  {
    var w := Add(v, Scale(s, a));
    var vl := Add(w, Scale(dt, a));
    var vr := Add(v, Scale(tau, a));
    ScalarStep(x.x, v.x, a.x, s, dt, tau, w.x, vl.x, vr.x);
    ScalarStep(x.y, v.y, a.y, s, dt, tau, w.y, vl.y, vr.y);
    ScalarStep(x.z, v.z, a.z, s, dt, tau, w.z, vl.z, vr.z);
  }

  /** One coordinate of `UniformStepAlgebra`: `w` is the velocity after the
      elapsed time `s`, and `vl`, `vr` the two sides of the velocity
      equation. */
  lemma ScalarStep(x: real, v: real, a: real, s: real, dt: real, tau: real, w: real, vl: real, vr: real)
    requires tau == s + dt
    requires w == v + s * a
    requires vl == w + dt * a && vr == v + tau * a
    ensures vl == vr
    ensures Travel(Travel(x, v, a, s), w, a, dt) == Travel(x, v, a, tau)
  {
    assert tau * v == s * v + dt * v;
    assert tau * a == s * a + dt * a;
    assert tau * tau / 2.0 * a == s * s / 2.0 * a + s * dt * a + dt * dt / 2.0 * a;
    assert dt * w == dt * v + s * dt * a;
  }

  /** The resting equilibrium: with no fields and no velocity the particle
      never leaves its position, however many steps are taken. */
  lemma RestIsEquilibrium(model: Model, n: nat)
    requires Steppable(model)
    requires model.params.E == Zero && model.params.B == Zero
    requires model.vel == Zero
    ensures Moves(model, n).pos == model.pos
    ensures Moves(model, n).vel == Zero
  {
    var tau := n as real * model.integrator.dt;
    UniformFieldMoves(model, n, tau);
    assert Scale(model.params.q / model.params.m, model.params.E) == Zero;
    assert Scale(tau, Zero) == Zero;
    assert Scale(tau * tau / 2.0, Zero) == Zero;
  }
}
