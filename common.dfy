/** Small value types and scalar helpers shared by the controller and the rendezvous module. */
module Common {

  /** A reference that may be null in the original program. */
  datatype Option<T> = None | Some(value: T)

  /** A three-component vector of doubles (Vector3d / Vector3). */
  datatype Vec3 = Vec3(x: real, y: real, z: real)

  const ZeroVec: Vec3 := Vec3(0.0, 0.0, 0.0)

  function Add(a: Vec3, b: Vec3): Vec3 {
    Vec3(a.x + b.x, a.y + b.y, a.z + b.z)
  }

  function Sub(a: Vec3, b: Vec3): Vec3 {
    Vec3(a.x - b.x, a.y - b.y, a.z - b.z)
  }

  function Scale(k: real, a: Vec3): Vec3 {
    Vec3(k * a.x, k * a.y, k * a.z)
  }

  /** Squared length; the source compares magnitudes, which this model does by squares. */
  function SquaredLength(a: Vec3): real {
    a.x * a.x + a.y * a.y + a.z * a.z
  }

  /** Math.Abs */
  function Abs(x: real): (r: real)
    ensures r >= 0.0
    ensures r == x || r == -x
  {
    if x < 0.0 then -x else x
  }

  /** Math.Min */
  function Min(a: real, b: real): (r: real)
    ensures r <= a && r <= b
    ensures r == a || r == b
  {
    if a <= b then a else b
  }

  /** Math.Max */
  function Max(a: real, b: real): (r: real)
    ensures r >= a && r >= b
    ensures r == a || r == b
  {
    if a >= b then a else b
  }

  /** Mathf.Clamp: the value itself when it lies in [lo, hi], otherwise the nearer bound. */
  function Clamp(v: real, lo: real, hi: real): (r: real)
    requires lo <= hi
    ensures lo <= r <= hi
    ensures lo <= v <= hi ==> r == v
    ensures v < lo ==> r == lo
    ensures v > hi ==> r == hi
  {
    if v < lo then lo else if v > hi then hi else v
  }
}
