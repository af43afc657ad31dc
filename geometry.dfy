/** Three-dimensional real vectors (the model's stand-in for Eigen::Vector3d). */
module Geometry {

  datatype Vec3 = Vec3(x: real, y: real, z: real)

  const Origin: Vec3 := Vec3(0.0, 0.0, 0.0)

  function Add(a: Vec3, b: Vec3): Vec3 {
    Vec3(a.x + b.x, a.y + b.y, a.z + b.z)
  }

  function Sub(a: Vec3, b: Vec3): Vec3 {
    Vec3(a.x - b.x, a.y - b.y, a.z - b.z)
  }

  function Scale(k: real, a: Vec3): Vec3 {
    Vec3(k * a.x, k * a.y, k * a.z)
  }

  function Dot3(a: Vec3, b: Vec3): real {
    a.x * b.x + a.y * b.y + a.z * b.z
  }

  function Abs(r: real): real {
    if r < 0.0 then -r else r
  }

  /** Squared Euclidean norm; exact over the reals, unlike the norm itself. */
  function SqNorm(a: Vec3): (r: real)
    ensures r >= 0.0
  {
    Dot3(a, a)
  }

  function SqDist(a: Vec3, b: Vec3): real {
    SqNorm(Sub(a, b))
  }

  /**
   * The Euclidean norm needs a square root, which real arithmetic does not
   * have: wherever the source calls `norm()` the model takes the norm as a
   * parameter, and asks of it no more than the proof at hand needs.
   */
  ghost predicate NonNegativeNorm(norm: Vec3 -> real) {
    forall v :: 0.0 <= norm(v)
  }

  /**
   * For non-negative quantities a strict comparison can be made on squares:
   * this is what lets the model compare squared distances where the source
   * compares norms (`a` is a norm, `b` a threshold or another norm).
   */
  lemma SquaredComparison(a: real, b: real)
    requires 0.0 <= a && 0.0 <= b
    ensures a < b <==> a * a < b * b
  {
    if a < b {
      SquaresGrow(a, b);
    } else if b < a {
      SquaresGrow(b, a);
    }
  }

  lemma SquaresGrow(a: real, b: real)
    requires 0.0 <= a < b
    ensures a * a < b * b
  {
    var lo, mid, hi := a * a, b * a, b * b;
    assert lo <= mid by { MulNonNegative(b - a, a); }
    assert mid < hi by { MulPositive(b - a, b); }
  }

  lemma MulNonNegative(x: real, y: real)
    requires 0.0 <= x && 0.0 <= y
    ensures 0.0 <= x * y
  {
  }

  lemma MulPositive(x: real, y: real)
    requires 0.0 < x && 0.0 < y
    ensures 0.0 < x * y
  {
  }
}
