/** utils/Vector3.h: a value type of three doubles with the usual algebra. */
module Vector3 {
  import opened Common

  datatype Vector3 = Vector3(x: real, y: real, z: real)

  /** The default constructor. */
  const Zero: Vector3 := Vector3(0.0, 0.0, 0.0)

  function Add(a: Vector3, b: Vector3): Vector3
  {
    Vector3(a.x + b.x, a.y + b.y, a.z + b.z)
  }

  function Sub(a: Vector3, b: Vector3): Vector3
  {
    Vector3(a.x - b.x, a.y - b.y, a.z - b.z)
  }

  function Dot(a: Vector3, b: Vector3): real
  {
    a.x * b.x + a.y * b.y + a.z * b.z
  }

  function Cross(a: Vector3, b: Vector3): Vector3
  {
    Vector3(a.y * b.z - a.z * b.y, a.z * b.x - a.x * b.z, a.x * b.y - a.y * b.x)
  }

  function MagnitudeSquared(a: Vector3): real
  {
    a.x * a.x + a.y * a.y + a.z * a.z
  }

  function Magnitude(m: Math, a: Vector3): real
  {
    m.sqrt(a.x * a.x + a.y * a.y + a.z * a.z)
  }

  /** A zero magnitude gives the zero vector; otherwise every component is
      divided by the magnitude. */
  function Normalize(m: Math, a: Vector3): Vector3
  {
    var mag := Magnitude(m, a);
    if mag == 0.0 then Zero else Vector3(a.x / mag, a.y / mag, a.z / mag)
  }

  function Scale(a: Vector3, s: real): Vector3
  {
    Vector3(a.x * s, a.y * s, a.z * s)
  }

  /** Division by the scalar 0 gives the zero vector instead of infinities. */
  function Div(a: Vector3, s: real): Vector3
  {
    if s == 0.0 then Zero else Vector3(a.x / s, a.y / s, a.z / s)
  }

  /** `-` undoes `+`. */
  lemma AddSubCancel(a: Vector3, b: Vector3)
    ensures Sub(Add(a, b), b) == a
    ensures Add(Sub(a, b), b) == a
  {
  }

  lemma DotSymmetric(a: Vector3, b: Vector3)
    ensures Dot(a, b) == Dot(b, a)
  {
  }

  lemma MagnitudeSquaredIsDot(a: Vector3)
    ensures MagnitudeSquared(a) == Dot(a, a) >= 0.0
  {
  }

  /** The magnitude is the non-negative root of the squared magnitude. */
  lemma MagnitudeRoot(m: Math, a: Vector3)
    requires Lawful(m)
    ensures Magnitude(m, a) >= 0.0
    ensures Magnitude(m, a) * Magnitude(m, a) == MagnitudeSquared(a)
  {
    SquareNonNegative(a.x);
    SquareNonNegative(a.y);
    SquareNonNegative(a.z);
  }

  /** The cross product is orthogonal to both operands. */
  lemma CrossOrthogonal(a: Vector3, b: Vector3)
    ensures Dot(a, Cross(a, b)) == 0.0
    ensures Dot(b, Cross(a, b)) == 0.0
  {
  }

  lemma CrossSelfZero(a: Vector3)
    ensures Cross(a, a) == Zero
  {
  }

  /** The cross product is anti-symmetric. */
  lemma CrossAntiSymmetric(a: Vector3, b: Vector3)
    ensures Cross(b, a) == Scale(Cross(a, b), -1.0)
  {
  }

  /** Normalising a vector of magnitude zero gives the zero vector;
      normalising any other vector gives a unit vector in the same
      direction. */
  lemma NormalizeUnit(m: Math, a: Vector3)
    requires Lawful(m)
    ensures Magnitude(m, a) == 0.0 ==> Normalize(m, a) == Zero
    ensures Magnitude(m, a) != 0.0 ==> MagnitudeSquared(Normalize(m, a)) == 1.0
    ensures Magnitude(m, a) != 0.0 ==> Normalize(m, a) == Scale(a, 1.0 / Magnitude(m, a))
  {
    MagnitudeRoot(m, a);
    var mag := Magnitude(m, a);
    if mag != 0.0 {
      var n := Normalize(m, a);
      assert n.x * n.x == (a.x * a.x) / (mag * mag);
      assert n.y * n.y == (a.y * a.y) / (mag * mag);
      assert n.z * n.z == (a.z * a.z) / (mag * mag);
      assert MagnitudeSquared(n) == MagnitudeSquared(a) / (mag * mag);
    }
  }

  /** Dividing by a non-zero scalar is multiplying by its inverse; dividing
      by zero gives the zero vector. */
  lemma DivIsScaleByInverse(a: Vector3, s: real)
    ensures s == 0.0 ==> Div(a, s) == Zero
    ensures s != 0.0 ==> Div(a, s) == Scale(a, 1.0 / s)
    ensures s != 0.0 ==> Scale(Div(a, s), s) == a
  {
  }

  /** Scalar multiplication distributes over `+`. */
  lemma ScaleDistributes(a: Vector3, b: Vector3, s: real)
    ensures Scale(Add(a, b), s) == Add(Scale(a, s), Scale(b, s))
  {
  }
}
