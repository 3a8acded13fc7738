/**
 * Vectors and Cinema 4D style matrices over the reals.
 *
 * A host matrix holds three basis columns `v1`, `v2`, `v3` and an offset
 * `off`; it maps a point p to off + v1*p.x + v2*p.y + v3*p.z.  Floating-point
 * rounding is not modelled: every coordinate is an exact `real`.
 */
module Geometry {

  datatype Vec3 = Vec3(x: real, y: real, z: real)

  datatype Matrix = Matrix(v1: Vec3, v2: Vec3, v3: Vec3, off: Vec3)

  const Zero: Vec3 := Vec3(0.0, 0.0, 0.0)

  /** The host's default matrix: unit basis, zero offset. */
  const Identity: Matrix :=
    Matrix(Vec3(1.0, 0.0, 0.0), Vec3(0.0, 1.0, 0.0), Vec3(0.0, 0.0, 1.0), Zero)

  function Add(a: Vec3, b: Vec3): Vec3 { Vec3(a.x + b.x, a.y + b.y, a.z + b.z) }

  function Neg(a: Vec3): Vec3 { Vec3(-a.x, -a.y, -a.z) }

  function Scale(a: Vec3, k: real): Vec3 { Vec3(a.x * k, a.y * k, a.z * k) }

  function Dot(a: Vec3, b: Vec3): real { a.x * b.x + a.y * b.y + a.z * b.z }

  function Cross(a: Vec3, b: Vec3): Vec3 {
    Vec3(a.y * b.z - a.z * b.y, a.z * b.x - a.x * b.z, a.x * b.y - a.y * b.x)
  }

  /** The host's `MulV`: the basis applied to a direction, the offset ignored. */
  function MulV(m: Matrix, v: Vec3): Vec3 {
    Add(Add(Scale(m.v1, v.x), Scale(m.v2, v.y)), Scale(m.v3, v.z))
  }

  /** The transposed basis applied to a direction: component i is v_i . v */
  function MulVT(m: Matrix, v: Vec3): Vec3 {
    Vec3(Dot(m.v1, v), Dot(m.v2, v), Dot(m.v3, v))
  }

  /** The host's matrix product `a * b`: first b, then a. */
  function Mul(a: Matrix, b: Matrix): Matrix {
    Matrix(MulV(a, b.v1), MulV(a, b.v2), MulV(a, b.v3), Add(a.off, MulV(a, b.off)))
  }

  /** Transposed basis with a zero offset, as a freshly built host matrix. */
  function Transpose(m: Matrix): Matrix {
    Matrix(Vec3(m.v1.x, m.v2.x, m.v3.x),
           Vec3(m.v1.y, m.v2.y, m.v3.y),
           Vec3(m.v1.z, m.v2.z, m.v3.z),
           Zero)
  }

  function Det(m: Matrix): real { Dot(m.v1, Cross(m.v2, m.v3)) }

  /** The basis columns are unit length and pairwise perpendicular. */
  predicate Orthonormal(m: Matrix) {
    && Dot(m.v1, m.v1) == 1.0 && Dot(m.v2, m.v2) == 1.0 && Dot(m.v3, m.v3) == 1.0
    && Dot(m.v1, m.v2) == 0.0 && Dot(m.v1, m.v3) == 0.0 && Dot(m.v2, m.v3) == 0.0
  }

  /** A proper rotation: orthonormal and right-handed (v1 x v2 = v3). */
  predicate IsRotation(m: Matrix) {
    Orthonormal(m) && Cross(m.v1, m.v2) == m.v3
  }

  lemma TripleProductCyclic(a: Vec3, b: Vec3, c: Vec3)
    ensures Dot(a, Cross(b, c)) == Dot(Cross(a, b), c)
  {
  }

  /** A rotation has determinant +1. */
  lemma RotationDet(m: Matrix)
    requires IsRotation(m)
    ensures Det(m) == 1.0
  {
    TripleProductCyclic(m.v1, m.v2, m.v3);
  }

  lemma DotScaled(a: Vec3, b: Vec3, k: real)
    ensures Dot(Scale(a, k), Scale(b, k)) == k * k * Dot(a, b)
  {
  }

  /** One component of the cross product of two scaled vectors. */
  lemma ScaledDifference(p: real, q: real, r: real, s: real, pk: real, qk: real, rk: real, sk: real, k: real, d: real)
    requires pk == p * k && qk == q * k && rk == r * k && sk == s * k
    requires d == p * q - r * s
    ensures pk * qk - rk * sk == d * (k * k)
  {
  }

  /** Each component of the cross product of two vectors scaled by k grows by k * k. */
  lemma CrossScaledX(a: Vec3, b: Vec3, k: real, c: Vec3, d: Vec3)
    requires c == Cross(a, b) && d == Cross(Scale(a, k), Scale(b, k))
    ensures d.x == c.x * (k * k)
  {
    var sa, sb := Scale(a, k), Scale(b, k);
    ScaledDifference(a.y, b.z, a.z, b.y, sa.y, sb.z, sa.z, sb.y, k, c.x);
  }

  lemma CrossScaledY(a: Vec3, b: Vec3, k: real, c: Vec3, d: Vec3)
    requires c == Cross(a, b) && d == Cross(Scale(a, k), Scale(b, k))
    ensures d.y == c.y * (k * k)
  {
    var sa, sb := Scale(a, k), Scale(b, k);
    ScaledDifference(a.z, b.x, a.x, b.z, sa.z, sb.x, sa.x, sb.z, k, c.y);
  }

  lemma CrossScaledZ(a: Vec3, b: Vec3, k: real, c: Vec3, d: Vec3)
    requires c == Cross(a, b) && d == Cross(Scale(a, k), Scale(b, k))
    ensures d.z == c.z * (k * k)
  {
    var sa, sb := Scale(a, k), Scale(b, k);
    ScaledDifference(a.x, b.y, a.y, b.x, sa.x, sb.y, sa.y, sb.x, k, c.z);
  }

  lemma CrossScaled(a: Vec3, b: Vec3, k: real)
    ensures Cross(Scale(a, k), Scale(b, k)) == Scale(Cross(a, b), k * k)
  {
    var c, d := Cross(a, b), Cross(Scale(a, k), Scale(b, k));
    CrossScaledX(a, b, k, c, d);
    CrossScaledY(a, b, k, c, d);
    CrossScaledZ(a, b, k, c, d);
  }

  lemma DotLinear(a: Vec3, b: Vec3, c: Vec3, s: real, t: real, u: real)
    ensures Dot(a, Add(Add(Scale(a, s), Scale(b, t)), Scale(c, u)))
         == s * Dot(a, a) + t * Dot(a, b) + u * Dot(a, c)
  {
  }

  lemma DotSymmetric(a: Vec3, b: Vec3)
    ensures Dot(a, b) == Dot(b, a)
  {
  }

  /**
   * A basis with orthonormal columns is inverted by its transpose:
   * applying the basis and then the transposed basis gives back v.
   */
  lemma OrthonormalInverse(m: Matrix, v: Vec3)
    requires Orthonormal(m)
    ensures MulVT(m, MulV(m, v)) == v
  {
    DotLinear(m.v1, m.v2, m.v3, v.x, v.y, v.z);
    DotLinear(m.v2, m.v1, m.v3, v.y, v.x, v.z);
    DotLinear(m.v3, m.v1, m.v2, v.z, v.x, v.y);
    DotSymmetric(m.v1, m.v2);
    DotSymmetric(m.v1, m.v3);
    DotSymmetric(m.v2, m.v3);
    var w := MulV(m, v);
    assert w == Add(Add(Scale(m.v2, v.y), Scale(m.v1, v.x)), Scale(m.v3, v.z));
    assert w == Add(Add(Scale(m.v3, v.z), Scale(m.v1, v.x)), Scale(m.v2, v.y));
  }

  /** Applying the transposed basis equals applying the basis of `Transpose`. */
  lemma MulVTIsTranspose(m: Matrix, v: Vec3)
    ensures MulVT(m, v) == MulV(Transpose(m), v)
  {
  }

  lemma ScaleTwice(a: Vec3, x: real, s: real)
    ensures Scale(a, x * s) == Scale(Scale(a, x), s)
  {
    assert a.x * (x * s) == (a.x * x) * s;
    assert a.y * (x * s) == (a.y * x) * s;
    assert a.z * (x * s) == (a.z * x) * s;
  }

  lemma AddScaled(a: Vec3, b: Vec3, s: real)
    ensures Add(Scale(a, s), Scale(b, s)) == Scale(Add(a, b), s)
  {
  }

  lemma MulVScaledDirection(m: Matrix, v: Vec3, s: real)
    ensures MulV(m, Scale(v, s))
         == Add(Add(Scale(m.v1, v.x * s), Scale(m.v2, v.y * s)), Scale(m.v3, v.z * s))
  {
  }

  /** Applying a basis commutes with scaling the direction. */
  lemma MulVScale(m: Matrix, v: Vec3, s: real)
    ensures MulV(m, Scale(v, s)) == Scale(MulV(m, v), s)
  {
    var a, b, c := Scale(m.v1, v.x), Scale(m.v2, v.y), Scale(m.v3, v.z);
    MulVScaledDirection(m, v, s);
    ScaleTwice(m.v1, v.x, s);
    ScaleTwice(m.v2, v.y, s);
    ScaleTwice(m.v3, v.z, s);
    AddScaled(a, b, s);
    AddScaled(Add(a, b), c, s);
  }

  lemma UnitAfterScale(d: real, n: real, k: real)
    requires d == n * n && n * k == 1.0
    ensures k * k * d == 1.0
  {
    assert k * k * (n * n) == (n * k) * (n * k);
  }

  lemma ZeroAfterScale(d: real, k: real)
    requires d == 0.0
    ensures k * k * d == 0.0
  {
  }

  lemma CancelScale(u: real, v: real, n: real, k: real)
    requires u == v * n && n * k == 1.0
    ensures u * (k * k) == v * k
  {
    assert u * (k * k) == v * (n * k) * k;
  }

  lemma CancelScaleVec(u: Vec3, v: Vec3, n: real, k: real)
    requires u == Scale(v, n) && n * k == 1.0
    ensures Scale(u, k * k) == Scale(v, k)
  {
    CancelScale(u.x, v.x, n, k);
    CancelScale(u.y, v.y, n, k);
    CancelScale(u.z, v.z, n, k);
  }

  lemma UnitScaled(a: Vec3, n: real, k: real)
    requires Dot(a, a) == n * n && n * k == 1.0
    ensures Dot(Scale(a, k), Scale(a, k)) == 1.0
  {
    DotScaled(a, a, k);
    UnitAfterScale(Dot(a, a), n, k);
  }

  lemma PerpScaled(a: Vec3, b: Vec3, k: real)
    requires Dot(a, b) == 0.0
    ensures Dot(Scale(a, k), Scale(b, k)) == 0.0
  {
    DotScaled(a, b, k);
    ZeroAfterScale(Dot(a, b), k);
  }

  lemma CrossOfScaled(a: Vec3, b: Vec3, c: Vec3, n: real, k: real)
    requires Cross(a, b) == Scale(c, n) && n * k == 1.0
    ensures Cross(Scale(a, k), Scale(b, k)) == Scale(c, k)
  {
    CrossScaled(a, b, k);
    CancelScaleVec(Cross(a, b), c, n, k);
  }

  /**
   * Columns that are perpendicular, of length n, and right-handed up to the
   * factor n form a rotation once each is multiplied by k = 1 / n.
   */
  lemma ScaledRotation(a: Vec3, b: Vec3, c: Vec3, n: real, k: real)
    requires Dot(a, a) == n * n && Dot(b, b) == n * n && Dot(c, c) == n * n
    requires Dot(a, b) == 0.0 && Dot(a, c) == 0.0 && Dot(b, c) == 0.0
    requires Cross(a, b) == Scale(c, n)
    requires n * k == 1.0
    ensures IsRotation(Matrix(Scale(a, k), Scale(b, k), Scale(c, k), Zero))
  {
    UnitScaled(a, n, k); UnitScaled(b, n, k); UnitScaled(c, n, k);
    PerpScaled(a, b, k); PerpScaled(a, c, k); PerpScaled(b, c, k);
    CrossOfScaled(a, b, c, n, k);
  }
}
