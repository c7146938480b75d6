/**
 * Vectors, quaternions and rigid transforms as the game layer uses them.
 * Coordinates are only copied and multiplied, so they are modelled as exact reals;
 * single-precision rounding is not modelled.
 */
module Geometry {

  datatype Vec3 = Vec3(x: real, y: real, z: real)

  /** A quaternion stored in the engine's (x, y, z, w) order. */
  datatype Quat = Quat(x: real, y: real, z: real, w: real)

  /** The rotation a transform has after `setIdentity`. */
  const Identity: Quat := Quat(0.0, 0.0, 0.0, 1.0)

  const Origin: Vec3 := Vec3(0.0, 0.0, 0.0)

  /** Position plus orientation, the part of a body's world transform the game reads and writes. */
  datatype Transform = Transform(origin: Vec3, rotation: Quat)

  /** The transform `setIdentity` followed by `setOrigin(p)` produces. */
  function Placed(p: Vec3): Transform
  {
    Transform(p, Identity)
  }

  /** Hamilton product `a * b`, with the engine's component formula. */
  function Mul(a: Quat, b: Quat): Quat
  {
    Quat(a.w * b.x + a.x * b.w + a.y * b.z - a.z * b.y,
         a.w * b.y + a.y * b.w + a.z * b.x - a.x * b.z,
         a.w * b.z + a.z * b.w + a.x * b.y - a.y * b.x,
         a.w * b.w - a.x * b.x - a.y * b.y - a.z * b.z)
  }

  /** The cosine and sine of half a rotation angle, computed outside the model. */
  datatype HalfAngle = HalfAngle(cos: real, sin: real)

  /** A half-angle pair that really is a cosine and a sine: it lies on the unit circle. */
  predicate OnUnitCircle(h: HalfAngle)
  {
    h.cos * h.cos + h.sin * h.sin == 1.0
  }

  /** The half-angle pair of the sum of two angles, by the angle-addition formulas. */
  function AddAngles(a: HalfAngle, b: HalfAngle): HalfAngle
  {
    HalfAngle(a.cos * b.cos - a.sin * b.sin, a.sin * b.cos + a.cos * b.sin)
  }

  /** The half-angle pair of the negated angle: cosine is even, sine is odd. */
  function Negate(a: HalfAngle): HalfAngle
  {
    HalfAngle(a.cos, -a.sin)
  }

  /** Rotation about the X axis by the angle whose half-angle pair is `h`. */
  function AboutX(h: HalfAngle): Quat
  {
    Quat(h.sin, 0.0, 0.0, h.cos)
  }

  /** Rotation about the Z axis by the angle whose half-angle pair is `h`. */
  function AboutZ(h: HalfAngle): Quat
  {
    Quat(0.0, 0.0, h.sin, h.cos)
  }

  lemma MulIdentity(q: Quat)
    ensures Mul(Identity, q) == q && Mul(q, Identity) == q
  {
  }

  /** Two increments about X compose into one increment by the summed angle. */
  lemma AboutXComposes(a: HalfAngle, b: HalfAngle)
    ensures Mul(AboutX(a), AboutX(b)) == AboutX(AddAngles(a, b))
  {
  }

  /** Two increments about Z compose into one increment by the summed angle. */
  lemma AboutZComposes(a: HalfAngle, b: HalfAngle)
    ensures Mul(AboutZ(a), AboutZ(b)) == AboutZ(AddAngles(a, b))
  {
  }

  /** An increment followed by the opposite increment is no rotation at all. */
  lemma OppositeIncrementsCancel(h: HalfAngle)
    requires OnUnitCircle(h)
    ensures Mul(AboutX(Negate(h)), AboutX(h)) == Identity
    ensures Mul(AboutZ(Negate(h)), AboutZ(h)) == Identity
  {
  }
}
