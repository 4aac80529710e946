/** One classical fourth-order Runge-Kutta step of the particle's equations of
    motion, `RK4Integrator.integrate` in the source. Position and velocity are
    advanced together; the acceleration reads only the velocity. */
module RK4 {
  import opened Vectors
  import opened Lorentz

  /** The integrator object; its only state is the fixed step `dt`. */
  datatype RK4Integrator = RK4Integrator(dt: real)

  /** The pair the integrator returns: new position and new velocity. */
  datatype PhaseState = PhaseState(pos: Vec3, vel: Vec3)

  /** All twelve intermediate quantities of one step. The source also computes
      the position stages `x2`, `x3`, `x4`, but never reads them, because the
      Lorentz acceleration ignores position. */
  datatype Stages = Stages(
    x1: Vec3, x2: Vec3, x3: Vec3, x4: Vec3,
    v1: Vec3, v2: Vec3, v3: Vec3, v4: Vec3,
    a1: Vec3, a2: Vec3, a3: Vec3, a4: Vec3)

  function ComputeStages(dt: real, p: Params, pos: Vec3, vel: Vec3): Stages
    requires p.m != 0.0
  {
    var x1 := pos;
    var v1 := vel;
    var a1 := Accel(p, v1);
    var x2 := Add(x1, Scale(0.5 * dt, v1));
    var v2 := Add(v1, Scale(0.5 * dt, a1));
    var a2 := Accel(p, v2);
    var x3 := Add(x1, Scale(0.5 * dt, v2));
    var v3 := Add(v1, Scale(0.5 * dt, a2));
    var a3 := Accel(p, v3);
    var x4 := Add(x1, Scale(dt, v3));
    var v4 := Add(v1, Scale(dt, a3));
    var a4 := Accel(p, v4);
    Stages(x1, x2, x3, x4, v1, v2, v3, v4, a1, a2, a3, a4)
  }

  /** The weighted RK4 combination `d1 + 2·d2 + 2·d3 + d4`. */
  function Weighted(d1: Vec3, d2: Vec3, d3: Vec3, d4: Vec3): Vec3 {
    Vec3(d1.x + 2.0 * d2.x + 2.0 * d3.x + d4.x,
         d1.y + 2.0 * d2.y + 2.0 * d3.y + d4.y,
         d1.z + 2.0 * d2.z + 2.0 * d3.z + d4.z)
  }

  /** One step of size `integ.dt` from `(pos, vel)` under parameters `p`. */
  function Integrate(integ: RK4Integrator, p: Params, pos: Vec3, vel: Vec3): (r: PhaseState)
    requires p.m != 0.0
    ensures integ.dt == 0.0 ==> r == PhaseState(pos, vel)
  {
    var dt := integ.dt;
    var s := ComputeStages(dt, p, pos, vel);
    PhaseState(Add(s.x1, Scale(dt / 6.0, Weighted(s.v1, s.v2, s.v3, s.v4))),
               Add(s.v1, Scale(dt / 6.0, Weighted(s.a1, s.a2, s.a3, s.a4))))
  }

  /** Because the acceleration ignores position, the step uses the starting
      position only to add a displacement to it: shifting the start shifts
      the end by the same amount and leaves the new velocity as it was. */
  lemma TranslationInvariant(integ: RK4Integrator, p: Params, pos: Vec3, vel: Vec3, d: Vec3)
    requires p.m != 0.0
    ensures Integrate(integ, p, Add(pos, d), vel).vel == Integrate(integ, p, pos, vel).vel
    ensures Integrate(integ, p, Add(pos, d), vel).pos == Add(Integrate(integ, p, pos, vel).pos, d)
  {
  }

  /** With no fields at all the velocity stays constant and the position moves
      by exactly `dt·vel`: every stage velocity equals the initial one, so the
      weighted sum is six times it. */
  lemma ZeroFieldStep(integ: RK4Integrator, p: Params, pos: Vec3, vel: Vec3)
    requires p.m != 0.0
    requires p.E == Zero && p.B == Zero
    ensures Integrate(integ, p, pos, vel).vel == vel
    ensures Integrate(integ, p, pos, vel).pos == Add(pos, Scale(integ.dt, vel))
  {
    var dt := integ.dt;
    ZeroFieldStages(dt, p, pos, vel);
    ZeroAccelerationAlgebra(vel, dt);
  }

  /** Without fields every stage acceleration vanishes, so every stage
      velocity is the initial one. */
  lemma ZeroFieldStages(dt: real, p: Params, pos: Vec3, vel: Vec3)
    requires p.m != 0.0
    requires p.E == Zero && p.B == Zero
    ensures var s := ComputeStages(dt, p, pos, vel);
            && s.v1 == vel && s.v2 == vel && s.v3 == vel && s.v4 == vel
            && s.a1 == Zero && s.a2 == Zero && s.a3 == Zero && s.a4 == Zero
  {
    var s := ComputeStages(dt, p, pos, vel);
    ScaleZero(0.5 * dt);
    ScaleZero(dt);
    AddZero(vel);
    assert s.a1 == Zero;
    assert s.v2 == vel;
    assert s.v3 == vel;
    assert s.v4 == vel;
  }

  /** The RK4 weights applied to the stages of a vanishing acceleration. */
  lemma ZeroAccelerationAlgebra(v: Vec3, dt: real)
    ensures Scale(dt / 6.0, Weighted(v, v, v, v)) == Scale(dt, v)
    ensures Scale(dt / 6.0, Weighted(Zero, Zero, Zero, Zero)) == Zero
  {
    ConstantWeights(v, dt);
    assert Weighted(Zero, Zero, Zero, Zero) == Zero;
    ScaleZero(dt / 6.0);
  }

  /** Four equal stages weigh in as one whole step. */
  lemma ConstantWeights(v: Vec3, dt: real)
    ensures Scale(dt / 6.0, Weighted(v, v, v, v)) == Scale(dt, v)
  {
    var w := Weighted(v, v, v, v);
    SixthOfSixfold(w.x, v.x, dt);
    SixthOfSixfold(w.y, v.y, dt);
    SixthOfSixfold(w.z, v.z, dt);
  }

  /** A sixth of the step applied to six times `v`. */
  lemma SixthOfSixfold(w: real, v: real, dt: real)
    requires w == 6.0 * v
    ensures dt / 6.0 * w == dt * v
  {
  }

  /** Simulated time after `n` steps of size `dt`, accumulated step by step. */
  function Elapsed(dt: real, n: nat): real {
    if n == 0 then 0.0 else Elapsed(dt, n - 1) + dt
  }

  /** Accumulated time is exactly `n·dt`. */
  lemma {:induction false} ElapsedIsProduct(dt: real, n: nat)
    ensures Elapsed(dt, n) == n as real * dt
  {
    if n > 0 {
      ElapsedIsProduct(dt, n - 1);
      assert n as real * dt == (n - 1) as real * dt + dt;
    }
  }

  /** Accumulated time is additive in the number of steps. */
  lemma {:induction false} ElapsedAdd(dt: real, a: nat, b: nat)
    ensures Elapsed(dt, a + b) == Elapsed(dt, a) + Elapsed(dt, b)
    decreases b
  {
    if b > 0 {
      ElapsedAdd(dt, a, b - 1);
    }
  }

  /** With a positive step, any nonzero number of steps takes at least one
      step's worth of time. */
  lemma {:induction false} ElapsedAtLeastStep(dt: real, n: nat)
    requires dt > 0.0
    requires n > 0
    ensures Elapsed(dt, n) >= dt
  {
    if n > 1 {
      ElapsedAtLeastStep(dt, n - 1);
    }
  }

  /** Exact uniformly accelerated motion: the position reached after time
      `t` from `x` with initial velocity `v` and constant acceleration `a`,
      x + t·v + (t²/2)·a. */
  function Drift(x: Vec3, v: Vec3, a: Vec3, t: real): Vec3 {
    Vec3(Travel(x.x, v.x, a.x, t), Travel(x.y, v.y, a.y, t), Travel(x.z, v.z, a.z, t))
  }

  /** One coordinate of `Drift`. */
  function Travel(x: real, v: real, a: real, t: real): real {
    x + t * v + t * t / 2.0 * a
  }

  /** With no magnetic field the acceleration `a = (q/m)·E` is constant and one
      step reproduces uniformly accelerated motion exactly:
      vel' = vel + dt·a and pos' = pos + dt·vel + (dt²/2)·a. */
  lemma UniformFieldStep(integ: RK4Integrator, p: Params, pos: Vec3, vel: Vec3, a: Vec3)
    requires p.m != 0.0
    requires p.B == Zero
    requires a == Scale(p.q / p.m, p.E)
    ensures Integrate(integ, p, pos, vel).vel == Add(vel, Scale(integ.dt, a))
    ensures Integrate(integ, p, pos, vel).pos == Drift(pos, vel, a, integ.dt)
  {
    var dt := integ.dt;
    var s := ComputeStages(dt, p, pos, vel);
    var half := Add(vel, Scale(0.5 * dt, a));
    var full := Add(vel, Scale(dt, a));
    assert s.a1 == a && s.v2 == half && s.a2 == a && s.v3 == half && s.a3 == a;
    assert s.v4 == full && s.a4 == a;
    ConstantAccelerationAlgebra(pos, vel, a, dt);
  }

  /** The RK4 weights applied to the stages of a constant acceleration `a`. */
  lemma ConstantAccelerationAlgebra(x: Vec3, v: Vec3, a: Vec3, dt: real)
    ensures var half := Add(v, Scale(0.5 * dt, a));
            var full := Add(v, Scale(dt, a));
            && Add(x, Scale(dt / 6.0, Weighted(v, half, half, full))) == Drift(x, v, a, dt)
            && Add(v, Scale(dt / 6.0, Weighted(a, a, a, a))) == Add(v, Scale(dt, a))
  {
    ConstantAccelerationPosition(x, v, a, dt);
    ConstantAccelerationVelocity(v, a, dt);
  }

  lemma ConstantAccelerationPosition(x: Vec3, v: Vec3, a: Vec3, dt: real)
    ensures var half := Add(v, Scale(0.5 * dt, a));
            var full := Add(v, Scale(dt, a));
            Add(x, Scale(dt / 6.0, Weighted(v, half, half, full))) == Drift(x, v, a, dt)
  {
    var half := Add(v, Scale(0.5 * dt, a));
    var full := Add(v, Scale(dt, a));
    var w := Weighted(v, half, half, full);
    var lhs := Add(x, Scale(dt / 6.0, w));
    ScalarPosition(x.x, v.x, a.x, dt, half.x, full.x, w.x, lhs.x);
    ScalarPosition(x.y, v.y, a.y, dt, half.y, full.y, w.y, lhs.y);
    ScalarPosition(x.z, v.z, a.z, dt, half.z, full.z, w.z, lhs.z);
  }

  lemma ConstantAccelerationVelocity(v: Vec3, a: Vec3, dt: real)
    ensures Add(v, Scale(dt / 6.0, Weighted(a, a, a, a))) == Add(v, Scale(dt, a))
  {
    ConstantWeights(a, dt);
  }

  /** One component of `ConstantAccelerationPosition`: `h` and `f` are the
      half-step and full-step stage velocities, `w` their weighted sum, and
      `l` the new coordinate. */
  lemma ScalarPosition(x: real, v: real, a: real, dt: real, h: real, f: real, w: real, l: real)
    requires h == v + 0.5 * dt * a
    requires f == v + dt * a
    requires w == v + 2.0 * h + 2.0 * h + f
    requires l == x + dt / 6.0 * w
    ensures l == Travel(x, v, a, dt)
  {
  }
}
