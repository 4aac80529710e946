/** The Lorentz acceleration law of the particle model, `Model.accel` in the
    source: a = (q/m)(E + v × B), computed component by component from the
    velocity alone (position never enters). */
module Lorentz {
  import opened Vectors

  /** The physical parameters the acceleration reads: charge `q`, mass `m`,
      electric field `E = (Ex, Ey, Ez)` and magnetic field `B = (Bx, By, Bz)`. */
  datatype Params = Params(q: real, m: real, E: Vec3, B: Vec3)

  /** Acceleration for velocity `vel`. The source divides by `m` without a
      check, so a zero mass is excluded here. */
  function Accel(p: Params, vel: Vec3): (a: Vec3)
    requires p.m != 0.0
    ensures p.B == Zero ==> a == Scale(p.q / p.m, p.E)
    ensures p.E == Zero && p.B == Zero ==> a == Zero
  {
    var qm := p.q / p.m;
    var vx := vel.x;
    var vy := vel.y;
    var vz := vel.z;
    var ax := qm * (p.E.x + vy * p.B.z - vz * p.B.y);
    var ay := qm * (p.E.y + vz * p.B.x - vx * p.B.z);
    var az := qm * (p.E.z + vx * p.B.y - vy * p.B.x);
    Vec3(ax, ay, az)
  }

  /** The component formulas are the vector law a = (q/m)(E + v × B). */
  lemma AccelIsLorentz(p: Params, vel: Vec3)
    requires p.m != 0.0
    ensures Accel(p, vel) == Scale(p.q / p.m, Add(p.E, Cross(vel, p.B)))
  {
  }

  /** Without an electric field the force is purely magnetic and does no work:
      the acceleration is orthogonal to the velocity it was computed from. */
  lemma MagneticForceDoesNoWork(p: Params, vel: Vec3)
    requires p.m != 0.0
    requires p.E == Zero
    ensures Dot(Accel(p, vel), vel) == 0.0
  {
    var c := Cross(vel, p.B);
    AccelIsLorentz(p, vel);
    assert Add(p.E, c) == c;
    DotScale(p.q / p.m, c, vel);
    CrossOrthogonal(vel, p.B);
  }
}
