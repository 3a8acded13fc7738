/**
 * Quaternion to rotation matrix, as the importer's `quat_to_matrix` does it
 * (src/COLMAP_Tracking_Importer_C4D_v1_3.py:91-105).
 *
 * The source first divides each component by the norm sqrt(N), with
 * N = w*w + x*x + y*y + z*z, and then forms products of two components.  Every
 * such product (q_i / sqrt(N)) * (q_j / sqrt(N)) equals q_i * q_j * (1 / N), so
 * the model scales the products by 1 / N and needs no square root; the zero
 * quaternion, whose norm is 0, yields the identity basis as in the source.
 */
module Rotation {
  import opened Geometry

  /** A reconstruction quaternion (qw, qx, qy, qz), world-to-camera. */
  datatype Quat = Quat(w: real, x: real, y: real, z: real)

  function NormSq(q: Quat): real { q.w * q.w + q.x * q.x + q.y * q.y + q.z * q.z }

  function Conj(q: Quat): Quat { Quat(q.w, -q.x, -q.y, -q.z) }

  /**
   * The nine products the source forms from the normalised quaternion:
   * xx = qx*qx, xy = qx*qy, wx = qw*qx, ...
   */
  datatype Products = Products(xx: real, yy: real, zz: real, xy: real, xz: real, yz: real,
                               wx: real, wy: real, wz: real)

  /** The basis the source assembles from the products. */
  function FromProducts(p: Products): Matrix
  {
    Matrix(Vec3(1.0 - 2.0 * (p.yy + p.zz), 2.0 * (p.xy + p.wz), 2.0 * (p.xz - p.wy)),
           Vec3(2.0 * (p.xy - p.wz), 1.0 - 2.0 * (p.xx + p.zz), 2.0 * (p.yz + p.wx)),
           Vec3(2.0 * (p.xz + p.wy), 2.0 * (p.yz - p.wx), 1.0 - 2.0 * (p.xx + p.yy)),
           Zero)
  }

  /**
   * The rotation matrix of the normalised quaternion: column v1 = (r00, r10, r20),
   * v2 = (r01, r11, r21), v3 = (r02, r12, r22), zero offset.
   */
  function QuatToMatrix(q: Quat): Matrix
  {
    var n := NormSq(q);
    if n == 0.0 then Identity
    else Normalised(q, 1.0 / n)
  }

  /** The products of q, each multiplied by `inv`. */
  function ProductsOf(q: Quat, inv: real): Products
  {
    Products(q.x * q.x * inv, q.y * q.y * inv, q.z * q.z * inv,
             q.x * q.y * inv, q.x * q.z * inv, q.y * q.z * inv,
             q.w * q.x * inv, q.w * q.y * inv, q.w * q.z * inv)
  }

  /** The basis from the products of q, each multiplied by `inv`. */
  function Normalised(q: Quat, inv: real): Matrix
  {
    FromProducts(ProductsOf(q, inv))
  }

  // The columns of QuatToMatrix(q), each multiplied by NormSq(q): polynomials in q.

  function Col1(q: Quat): Vec3 {
    Vec3(q.w * q.w + q.x * q.x - q.y * q.y - q.z * q.z,
         2.0 * (q.x * q.y + q.w * q.z),
         2.0 * (q.x * q.z - q.w * q.y))
  }

  function Col2(q: Quat): Vec3 {
    Vec3(2.0 * (q.x * q.y - q.w * q.z),
         q.w * q.w - q.x * q.x + q.y * q.y - q.z * q.z,
         2.0 * (q.y * q.z + q.w * q.x))
  }

  function Col3(q: Quat): Vec3 {
    Vec3(2.0 * (q.x * q.z + q.w * q.y),
         2.0 * (q.y * q.z - q.w * q.x),
         q.w * q.w - q.x * q.x - q.y * q.y + q.z * q.z)
  }

  // The cross-product identities as polynomials.  Each takes the entries it
  // combines as separate arguments, so that the caller's terms match without
  // arithmetic.

  lemma PolyCrossX(w: real, x: real, y: real, z: real, b1: real, c1: real, b2: real, c2: real, a3: real, n: real)
    requires b1 == 2.0 * (x * y + w * z) && c1 == 2.0 * (x * z - w * y)
    requires b2 == w * w - x * x + y * y - z * z && c2 == 2.0 * (y * z + w * x)
    requires a3 == 2.0 * (x * z + w * y) && n == w * w + x * x + y * y + z * z
    ensures b1 * c2 - c1 * b2 == a3 * n
  {
  }

  lemma PolyCrossY(w: real, x: real, y: real, z: real, a1: real, c1: real, a2: real, c2: real, b3: real, n: real)
    requires a1 == w * w + x * x - y * y - z * z && c1 == 2.0 * (x * z - w * y)
    requires a2 == 2.0 * (x * y - w * z) && c2 == 2.0 * (y * z + w * x)
    requires b3 == 2.0 * (y * z - w * x) && n == w * w + x * x + y * y + z * z
    ensures c1 * a2 - a1 * c2 == b3 * n
  {
  }

  lemma PolyCrossZ(w: real, x: real, y: real, z: real, a1: real, b1: real, a2: real, b2: real, c3: real, n: real)
    requires a1 == w * w + x * x - y * y - z * z && b1 == 2.0 * (x * y + w * z)
    requires a2 == 2.0 * (x * y - w * z) && b2 == w * w - x * x + y * y - z * z
    requires c3 == w * w - x * x - y * y + z * z && n == w * w + x * x + y * y + z * z
    ensures a1 * b2 - b1 * a2 == c3 * n
  {
  }

  // Lengths, perpendicularity and handedness of the scaled columns of q.

  lemma NormV1(c: Vec3, q: Quat)
    requires c == Col1(q)
    ensures Dot(c, c) == NormSq(q) * NormSq(q)
  {
  }

  lemma NormV2(c: Vec3, q: Quat)
    requires c == Col2(q)
    ensures Dot(c, c) == NormSq(q) * NormSq(q)
  {
  }

  lemma NormV3(c: Vec3, q: Quat)
    requires c == Col3(q)
    ensures Dot(c, c) == NormSq(q) * NormSq(q)
  {
  }

  lemma Perp12V(c1: Vec3, c2: Vec3, q: Quat)
    requires c1 == Col1(q) && c2 == Col2(q)
    ensures Dot(c1, c2) == 0.0
  {
  }

  lemma Perp13V(c1: Vec3, c3: Vec3, q: Quat)
    requires c1 == Col1(q) && c3 == Col3(q)
    ensures Dot(c1, c3) == 0.0
  {
  }

  lemma Perp23V(c2: Vec3, c3: Vec3, q: Quat)
    requires c2 == Col2(q) && c3 == Col3(q)
    ensures Dot(c2, c3) == 0.0
  {
  }

  lemma CrossX(c1: Vec3, c2: Vec3, c3: Vec3, q: Quat)
    requires c1 == Col1(q) && c2 == Col2(q) && c3 == Col3(q)
    ensures c1.y * c2.z - c1.z * c2.y == c3.x * NormSq(q)
  {
    PolyCrossX(q.w, q.x, q.y, q.z, c1.y, c1.z, c2.y, c2.z, c3.x, NormSq(q));
  }

  lemma CrossY(c1: Vec3, c2: Vec3, c3: Vec3, q: Quat)
    requires c1 == Col1(q) && c2 == Col2(q) && c3 == Col3(q)
    ensures c1.z * c2.x - c1.x * c2.z == c3.y * NormSq(q)
  {
    PolyCrossY(q.w, q.x, q.y, q.z, c1.x, c1.z, c2.x, c2.z, c3.y, NormSq(q));
  }

  lemma CrossZ(c1: Vec3, c2: Vec3, c3: Vec3, q: Quat)
    requires c1 == Col1(q) && c2 == Col2(q) && c3 == Col3(q)
    ensures c1.x * c2.y - c1.y * c2.x == c3.z * NormSq(q)
  {
    PolyCrossZ(q.w, q.x, q.y, q.z, c1.x, c1.y, c2.x, c2.y, c3.z, NormSq(q));
  }

  lemma CrossV(c1: Vec3, c2: Vec3, c3: Vec3, q: Quat)
    requires c1 == Col1(q) && c2 == Col2(q) && c3 == Col3(q)
    ensures Cross(c1, c2) == Scale(c3, NormSq(q))
  {
    CrossX(c1, c2, c3, q);
    CrossY(c1, c2, c3, q);
    CrossZ(c1, c2, c3, q);
  }

  /** The scaled columns, each multiplied by k = 1 / N, form a rotation. */
  lemma ScaledColumnsRotation(c1: Vec3, c2: Vec3, c3: Vec3, q: Quat, k: real)
    requires c1 == Col1(q) && c2 == Col2(q) && c3 == Col3(q)
    requires NormSq(q) * k == 1.0
    ensures IsRotation(Matrix(Scale(c1, k), Scale(c2, k), Scale(c3, k), Zero))
  {
    NormV1(c1, q); NormV2(c2, q); NormV3(c3, q);
    Perp12V(c1, c2, q); Perp13V(c1, c3, q); Perp23V(c2, c3, q);
    CrossV(c1, c2, c3, q);
    ScaledRotation(c1, c2, c3, NormSq(q), k);
  }

  // Entries of the normalised basis against the scaled columns.

  lemma DiagonalEntry(ww: real, xx: real, yy: real, zz: real, inv: real)
    requires (ww + xx + yy + zz) * inv == 1.0
    ensures 1.0 - 2.0 * (yy * inv + zz * inv) == (ww + xx - yy - zz) * inv
  {
  }

  lemma SumEntry(a: real, b: real, inv: real)
    ensures 2.0 * (a * inv + b * inv) == 2.0 * (a + b) * inv
  {
  }

  lemma DifferenceEntry(a: real, b: real, inv: real)
    ensures 2.0 * (a * inv - b * inv) == 2.0 * (a - b) * inv
  {
  }

  lemma NormalisedColumn1(q: Quat, inv: real)
    requires NormSq(q) * inv == 1.0
    ensures Normalised(q, inv).v1 == Scale(Col1(q), inv)
  {
    var c := Scale(Col1(q), inv);
    assert Normalised(q, inv).v1.x == c.x by { DiagonalEntry(q.w * q.w, q.x * q.x, q.y * q.y, q.z * q.z, inv); }
    assert Normalised(q, inv).v1.y == c.y by { SumEntry(q.x * q.y, q.w * q.z, inv); }
    assert Normalised(q, inv).v1.z == c.z by { DifferenceEntry(q.x * q.z, q.w * q.y, inv); }
  }

  lemma NormalisedColumn2(q: Quat, inv: real)
    requires NormSq(q) * inv == 1.0
    ensures Normalised(q, inv).v2 == Scale(Col2(q), inv)
  {
    var c := Scale(Col2(q), inv);
    assert Normalised(q, inv).v2.x == c.x by { DifferenceEntry(q.x * q.y, q.w * q.z, inv); }
    assert Normalised(q, inv).v2.y == c.y by { DiagonalEntry(q.w * q.w, q.y * q.y, q.x * q.x, q.z * q.z, inv); }
    assert Normalised(q, inv).v2.z == c.z by { SumEntry(q.y * q.z, q.w * q.x, inv); }
  }

  lemma NormalisedColumn3(q: Quat, inv: real)
    requires NormSq(q) * inv == 1.0
    ensures Normalised(q, inv).v3 == Scale(Col3(q), inv)
  {
    var c := Scale(Col3(q), inv);
    assert Normalised(q, inv).v3.x == c.x by { SumEntry(q.x * q.z, q.w * q.y, inv); }
    assert Normalised(q, inv).v3.y == c.y by { DifferenceEntry(q.y * q.z, q.w * q.x, inv); }
    assert Normalised(q, inv).v3.z == c.z by { DiagonalEntry(q.w * q.w, q.z * q.z, q.x * q.x, q.y * q.y, inv); }
  }

  /** For a non-zero quaternion the basis is the scaled columns times 1 / N. */
  lemma ColumnsOfNormalised(q: Quat)
    requires NormSq(q) != 0.0
    ensures QuatToMatrix(q) == Matrix(Scale(Col1(q), 1.0 / NormSq(q)), Scale(Col2(q), 1.0 / NormSq(q)),
                                      Scale(Col3(q), 1.0 / NormSq(q)), Zero)
  {
    var inv := 1.0 / NormSq(q);
    assert NormSq(q) * inv == 1.0;
    NormalisedColumn1(q, inv);
    NormalisedColumn2(q, inv);
    NormalisedColumn3(q, inv);
  }

  lemma NonZeroRotation(q: Quat)
    requires NormSq(q) != 0.0
    ensures IsRotation(QuatToMatrix(q))
  {
    var inv := 1.0 / NormSq(q);
    var m := Matrix(Scale(Col1(q), inv), Scale(Col2(q), inv), Scale(Col3(q), inv), Zero);
    assert IsRotation(m) by {
      assert NormSq(q) * inv == 1.0;
      ScaledColumnsRotation(Col1(q), Col2(q), Col3(q), q, inv);
    }
    assert QuatToMatrix(q) == m by { ColumnsOfNormalised(q); }
  }

  lemma IdentityIsRotation()
    ensures IsRotation(Identity)
  {
  }

  lemma ZeroNormMatrix(q: Quat)
    requires NormSq(q) == 0.0
    ensures QuatToMatrix(q) == Identity
  {
  }

  /** The zero quaternion gives the identity basis. */
  lemma ZeroQuatMatrix()
    ensures QuatToMatrix(Quat(0.0, 0.0, 0.0, 0.0)) == Identity
  {
    assert NormSq(Quat(0.0, 0.0, 0.0, 0.0)) == 0.0;
  }

  /**
   * Every quaternion, after the source's normalisation, gives a proper
   * rotation: orthonormal columns and right-handed.  The zero quaternion
   * gives the identity.
   */
  lemma QuatToMatrixIsRotation(q: Quat)
    ensures IsRotation(QuatToMatrix(q))
    ensures q == Quat(0.0, 0.0, 0.0, 0.0) ==> QuatToMatrix(q) == Identity
  {
    if NormSq(q) == 0.0 {
      ZeroNormMatrix(q);
      IdentityIsRotation();
    } else {
      NonZeroRotation(q);
    }
    if q == Quat(0.0, 0.0, 0.0, 0.0) {
      ZeroQuatMatrix();
    }
  }

  /** The basis of every quaternion has determinant +1. */
  lemma QuatToMatrixDet(q: Quat)
    ensures Det(QuatToMatrix(q)) == 1.0
  {
    QuatToMatrixIsRotation(q);
    RotationDet(QuatToMatrix(q));
  }

  lemma ConjugateProduct(a: real, b: real, na: real, nb: real, inv: real)
    requires na == -a && nb == -b
    ensures na * nb * inv == a * b * inv
  {
  }

  lemma MixedProduct(a: real, b: real, nb: real, inv: real)
    requires nb == -b
    ensures a * nb * inv == -(a * b * inv)
  {
  }

  /** The products with the signs of the three w products changed. */
  function FlipW(p: Products): Products
  {
    Products(p.xx, p.yy, p.zz, p.xy, p.xz, p.yz, -p.wx, -p.wy, -p.wz)
  }

  /** Transposing the assembled basis only flips the signs of the w products. */
  lemma FromProductsTranspose(p: Products)
    ensures Transpose(FromProducts(p)) == FromProducts(FlipW(p))
  {
  }

  /** The products of the conjugate: the w products change sign, the others do not. */
  lemma ConjugateProducts(q: Quat, inv: real)
    ensures ProductsOf(Conj(q), inv) == FlipW(ProductsOf(q, inv))
  {
    var c := Conj(q);
    ConjugateProduct(q.x, q.x, c.x, c.x, inv); ConjugateProduct(q.y, q.y, c.y, c.y, inv);
    ConjugateProduct(q.z, q.z, c.z, c.z, inv); ConjugateProduct(q.x, q.y, c.x, c.y, inv);
    ConjugateProduct(q.x, q.z, c.x, c.z, inv); ConjugateProduct(q.y, q.z, c.y, c.z, inv);
    MixedProduct(q.w, q.x, c.x, inv); MixedProduct(q.w, q.y, c.y, inv); MixedProduct(q.w, q.z, c.z, inv);
  }

  lemma NormalisedConjugate(q: Quat, inv: real)
    ensures Transpose(Normalised(q, inv)) == Normalised(Conj(q), inv)
  {
    ConjugateProducts(q, inv);
    FromProductsTranspose(ProductsOf(q, inv));
  }

  /** The transpose of the matrix of q is the matrix of the conjugate of q. */
  lemma TransposeIsConjugate(q: Quat)
    ensures Transpose(QuatToMatrix(q)) == QuatToMatrix(Conj(q))
  {
    assert NormSq(Conj(q)) == NormSq(q) by {
      var c := Conj(q);
      ConjugateProduct(q.x, q.x, c.x, c.x, 1.0); ConjugateProduct(q.y, q.y, c.y, c.y, 1.0);
      ConjugateProduct(q.z, q.z, c.z, c.z, 1.0);
    }
    if NormSq(q) != 0.0 {
      NormalisedConjugate(q, 1.0 / NormSq(q));
    }
  }

  /** For a unit quaternion the normalisation changes nothing: the textbook formula. */
  lemma UnitQuatMatrix(q: Quat)
    requires NormSq(q) == 1.0
    ensures QuatToMatrix(q) == Matrix(Col1(q), Col2(q), Col3(q), Zero)
  {
    ColumnsOfNormalised(q);
  }
}
