/** The Vector3 operations the player controller uses, over exact reals:
    Project and ProjectOnPlane with the engine's guard against a
    near-zero normal, and normalisation of unit and zero vectors. */
module Vectors {

  datatype Vec3 = Vec3(x: real, y: real, z: real)

  const Zero: Vec3 := Vec3(0.0, 0.0, 0.0)
  const Up: Vec3 := Vec3(0.0, 1.0, 0.0)
  const Down: Vec3 := Vec3(0.0, -1.0, 0.0)
  const Right: Vec3 := Vec3(1.0, 0.0, 0.0)

  /** Mathf.Epsilon, the smallest positive single-precision value. */
  const MathfEpsilon: real := 0.000000000000000000000000000000000000000000001401298

  function Add(a: Vec3, b: Vec3): Vec3 {
    Vec3(a.x + b.x, a.y + b.y, a.z + b.z)
  }

  function Sub(a: Vec3, b: Vec3): Vec3 {
    Vec3(a.x - b.x, a.y - b.y, a.z - b.z)
  }

  function Scale(a: Vec3, k: real): Vec3 {
    Vec3(a.x * k, a.y * k, a.z * k)
  }

  /** v * -1 */
  function Negated(a: Vec3): Vec3 {
    Vec3(-a.x, -a.y, -a.z)
  }

  function Dot(a: Vec3, b: Vec3): real {
    a.x * b.x + a.y * b.y + a.z * b.z
  }

  function SqrMagnitude(a: Vec3): real {
    Dot(a, a)
  }

  /** Vector3.Project(v, onNormal) */
  function Project(v: Vec3, onNormal: Vec3): Vec3 {
    var sqrMag := SqrMagnitude(onNormal);
    if sqrMag < MathfEpsilon then Zero else Scale(onNormal, Dot(v, onNormal) / sqrMag)
  }

  /** Vector3.ProjectOnPlane(v, planeNormal) */
  function ProjectOnPlane(v: Vec3, planeNormal: Vec3): Vec3 {
    var sqrMag := SqrMagnitude(planeNormal);
    if sqrMag < MathfEpsilon then v else Sub(v, Scale(planeNormal, Dot(v, planeNormal) / sqrMag))
  }

  /** Vector3.normalized, on the vectors whose length is 1 or 0. */
  function Normalized(v: Vec3): (n: Vec3)
    requires SqrMagnitude(v) == 1.0 || SqrMagnitude(v) == 0.0
    ensures SqrMagnitude(v) == 1.0 ==> n == v
    ensures SqrMagnitude(v) == 0.0 ==> n == Zero
  {
    if SqrMagnitude(v) == 1.0 then v else Zero
  }

  lemma NegatedTwice(a: Vec3)
    ensures Negated(Negated(a)) == a
  {
  }

  /** The projection on a plane has no component along the plane's normal. */
  lemma ProjectOnPlaneOrthogonal(v: Vec3, n: Vec3)
    requires SqrMagnitude(n) >= MathfEpsilon
    ensures Dot(ProjectOnPlane(v, n), n) == 0.0
  {
    var s := SqrMagnitude(n);
    var k := Dot(v, n) / s;
    calc {
      Dot(ProjectOnPlane(v, n), n);
      Dot(Sub(v, Scale(n, k)), n);
      Dot(v, n) - k * s;
      { assert k * s == Dot(v, n); }
      0.0;
    }
  }

  predicate IsVerticalUnit(g: Vec3) {
    g == Up || g == Down
  }

  /** Along a vertical axis the projections split off the y component. */
  lemma VerticalProjections(v: Vec3, g: Vec3)
    requires IsVerticalUnit(g)
    ensures Project(v, g) == Vec3(0.0, v.y, 0.0)
    ensures ProjectOnPlane(v, g) == Vec3(v.x, 0.0, v.z)
  {
  }
}
