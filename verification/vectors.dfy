/** Exact 3-vectors over the reals. The source keeps positions, velocities and
    accelerations as three-element arrays `[x, y, z]` of doubles; here they are
    an immutable record of three reals, so the algebra below is exact. */
module Vectors {

  datatype Vec3 = Vec3(x: real, y: real, z: real)

  const Zero: Vec3 := Vec3(0.0, 0.0, 0.0)

  function Add(a: Vec3, b: Vec3): Vec3 {
    Vec3(a.x + b.x, a.y + b.y, a.z + b.z)
  }

  function Scale(k: real, a: Vec3): Vec3 {
    Vec3(k * a.x, k * a.y, k * a.z)
  }

  /** The vector product `a × b`. */
  function Cross(a: Vec3, b: Vec3): Vec3 {
    Vec3(a.y * b.z - a.z * b.y,
         a.z * b.x - a.x * b.z,
         a.x * b.y - a.y * b.x)
  }

  function Dot(a: Vec3, b: Vec3): real {
    a.x * b.x + a.y * b.y + a.z * b.z
  }

  /** A vector product is orthogonal to its left factor. */
  lemma CrossOrthogonal(a: Vec3, b: Vec3)
    ensures Dot(Cross(a, b), a) == 0.0
  {
    var c := Cross(a, b);
    assert c.x * a.x == a.y * b.z * a.x - a.z * b.y * a.x;
    assert c.y * a.y == a.z * b.x * a.y - a.x * b.z * a.y;
    assert c.z * a.z == a.x * b.y * a.z - a.y * b.x * a.z;
  }

  /** Scaling distributes over a dot product's left factor. */
  lemma DotScale(k: real, a: Vec3, b: Vec3)
    ensures Dot(Scale(k, a), b) == k * Dot(a, b)
  {
    assert (k * a.x) * b.x == k * (a.x * b.x);
    assert (k * a.y) * b.y == k * (a.y * b.y);
    assert (k * a.z) * b.z == k * (a.z * b.z);
  }

  /** Scaling the zero vector gives the zero vector. */
  lemma ScaleZero(k: real)
    ensures Scale(k, Zero) == Zero
  {
  }

  /** Adding the zero vector changes nothing. */
  lemma AddZero(a: Vec3)
    ensures Add(a, Zero) == a
  {
  }
}
