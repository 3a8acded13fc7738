/**
 * The fixed change of axes between the reconstruction's camera poses and the
 * host's global camera matrix (src/COLMAP_Tracking_Importer_C4D_v1_3.py:120-155).
 *
 * A pose (q, t) maps world points to camera points, x_cam = R(q) * x_world + t.
 * The importer inverts it (basis R^T, camera centre -R^T * t), flips the world
 * Y axis on every column and on the offset, and finally negates the local Y
 * column of the basis.
 */
module Transform {
  import opened Geometry
  import opened Rotation

  /** A 3x3 matrix as a list of three rows, the source's nested lists. */
  datatype Mat3 = Mat3(r0: Vec3, r1: Vec3, r2: Vec3)

  /** The world basis change: flip Y. */
  const BWorld: Mat3 := Mat3(Vec3(1.0, 0.0, 0.0), Vec3(0.0, -1.0, 0.0), Vec3(0.0, 0.0, 1.0))

  /** The camera-local fix, as a host matrix: v2 points the other way. */
  const FlipYFix: Matrix := Matrix(Vec3(1.0, 0.0, 0.0), Vec3(0.0, -1.0, 0.0), Vec3(0.0, 0.0, 1.0), Zero)

  /** Negates the Y component. */
  function FlipY(v: Vec3): Vec3 { Vec3(v.x, -v.y, v.z) }

  /** The rows of b applied to v: the product b * v. */
  function ApplyBToVec(v: Vec3, b: Mat3): Vec3
  {
    Vec3(b.r0.x * v.x + b.r0.y * v.y + b.r0.z * v.z,
         b.r1.x * v.x + b.r1.y * v.y + b.r1.z * v.z,
         b.r2.x * v.x + b.r2.y * v.y + b.r2.z * v.z)
  }

  /** b applied to each basis column and to the offset. */
  function ApplyBToMatrix(m: Matrix, b: Mat3): Matrix
  {
    Matrix(ApplyBToVec(m.v1, b), ApplyBToVec(m.v2, b), ApplyBToVec(m.v3, b), ApplyBToVec(m.off, b))
  }

  /** The host product m * FlipYFix. */
  function RightMultiplyFlipY(m: Matrix): Matrix
  {
    Mul(m, FlipYFix)
  }

  /** The host global matrix of the camera of a reconstruction pose (q, t). */
  function ColmapToC4dMatrix(q: Quat, t: Vec3): Matrix
  {
    var r := QuatToMatrix(q);
    var rt := Transpose(r);
    var centre := Neg(MulV(rt, t));
    var m := Matrix(rt.v1, rt.v2, rt.v3, centre);
    RightMultiplyFlipY(ApplyBToMatrix(m, BWorld))
  }

  /** The host matrix whose basis columns are the columns of b. */
  function AsHostMatrix(b: Mat3): Matrix
  {
    Matrix(Vec3(b.r0.x, b.r1.x, b.r2.x), Vec3(b.r0.y, b.r1.y, b.r2.y), Vec3(b.r0.z, b.r1.z, b.r2.z), Zero)
  }

  /** B_WORLD changes the sign of y and nothing else. */
  lemma BWorldFlipsY(v: Vec3)
    ensures ApplyBToVec(v, BWorld) == FlipY(v)
  {
  }

  /** Applying B_WORLD twice to a vector gives it back. */
  lemma BWorldVecInvolution(v: Vec3)
    ensures ApplyBToVec(ApplyBToVec(v, BWorld), BWorld) == v
  {
    BWorldFlipsY(v);
    BWorldFlipsY(FlipY(v));
  }

  /** Applying B_WORLD to a matrix flips y in every column and in the offset. */
  lemma BWorldMatrixFlipsY(m: Matrix)
    ensures ApplyBToMatrix(m, BWorld) == Matrix(FlipY(m.v1), FlipY(m.v2), FlipY(m.v3), FlipY(m.off))
  {
    BWorldFlipsY(m.v1); BWorldFlipsY(m.v2); BWorldFlipsY(m.v3); BWorldFlipsY(m.off);
  }

  /** Applying B_WORLD to a matrix twice gives it back. */
  lemma BWorldMatrixInvolution(m: Matrix)
    ensures ApplyBToMatrix(ApplyBToMatrix(m, BWorld), BWorld) == m
  {
    BWorldMatrixFlipsY(m);
    BWorldMatrixFlipsY(ApplyBToMatrix(m, BWorld));
  }

  /**
   * Applying any b column by column and to the offset is the host product
   * with b on the left: the change of world basis.
   */
  lemma ApplyBIsLeftProduct(m: Matrix, b: Mat3)
    ensures ApplyBToMatrix(m, b) == Mul(AsHostMatrix(b), m)
  {
    ApplyBIsMulV(m.v1, b); ApplyBIsMulV(m.v2, b); ApplyBIsMulV(m.v3, b); ApplyBIsMulV(m.off, b);
  }

  lemma ApplyBIsMulV(v: Vec3, b: Mat3)
    ensures ApplyBToVec(v, b) == MulV(AsHostMatrix(b), v)
    ensures ApplyBToVec(v, b) == Add(Zero, MulV(AsHostMatrix(b), v))
  {
  }

  /** The local fix negates the v2 column and keeps v1, v3 and the offset. */
  lemma FlipYColumns(m: Matrix)
    ensures RightMultiplyFlipY(m) == Matrix(m.v1, Neg(m.v2), m.v3, m.off)
  {
  }

  /** The local fix undoes itself. */
  lemma FlipYInvolution(m: Matrix)
    ensures RightMultiplyFlipY(RightMultiplyFlipY(m)) == m
  {
    FlipYColumns(m);
    FlipYColumns(RightMultiplyFlipY(m));
  }

  /**
   * The imported camera matrix, column by column: the columns of R^T with y
   * flipped, the second one negated, and the flipped camera centre -R^T * t.
   */
  lemma ColmapToC4dColumns(q: Quat, t: Vec3)
    ensures var rt := Transpose(QuatToMatrix(q));
            ColmapToC4dMatrix(q, t)
            == Matrix(FlipY(rt.v1), Neg(FlipY(rt.v2)), FlipY(rt.v3), FlipY(Neg(MulV(rt, t))))
  {
    var rt := Transpose(QuatToMatrix(q));
    var m := Matrix(rt.v1, rt.v2, rt.v3, Neg(MulV(rt, t)));
    BWorldMatrixFlipsY(m);
    FlipYColumns(ApplyBToMatrix(m, BWorld));
  }

  /** Undoing both axis fixes recovers the inverted pose: basis R^T, offset -R^T * t. */
  lemma ColmapToC4dInverse(q: Quat, t: Vec3)
    ensures var rt := Transpose(QuatToMatrix(q));
            ApplyBToMatrix(RightMultiplyFlipY(ColmapToC4dMatrix(q, t)), BWorld)
            == Matrix(rt.v1, rt.v2, rt.v3, Neg(MulV(rt, t)))
  {
    var rt := Transpose(QuatToMatrix(q));
    var m := Matrix(rt.v1, rt.v2, rt.v3, Neg(MulV(rt, t)));
    FlipYInvolution(ApplyBToMatrix(m, BWorld));
    BWorldMatrixInvolution(m);
  }

  lemma TransposeTwice(m: Matrix)
    requires m.off == Zero
    ensures Transpose(Transpose(m)) == m
  {
  }

  lemma NegNeg(v: Vec3)
    ensures Neg(Neg(v)) == v
  {
  }

  /**
   * The translation of the pose is recovered from the imported matrix: undo
   * the axis fixes and apply R to the negated offset.
   */
  lemma ColmapToC4dRecoversTranslation(q: Quat, t: Vec3)
    ensures var back := ApplyBToMatrix(RightMultiplyFlipY(ColmapToC4dMatrix(q, t)), BWorld);
            MulV(QuatToMatrix(q), Neg(back.off)) == t
  {
    var r := QuatToMatrix(q);
    var rc := QuatToMatrix(Conj(q));
    ColmapToC4dInverse(q, t);
    TransposeIsConjugate(q);
    QuatToMatrixIsRotation(Conj(q));
    OrthonormalInverse(rc, t);
    MulVTIsTranspose(rc, MulV(rc, t));
    assert Transpose(rc) == r by { TransposeTwice(r); }
    NegNeg(MulV(Transpose(r), t));
  }

  lemma FlipYDot(a: Vec3, b: Vec3)
    ensures Dot(FlipY(a), FlipY(b)) == Dot(a, b)
  {
  }

  lemma FlipYCross(a: Vec3, b: Vec3)
    ensures Cross(FlipY(a), Neg(FlipY(b))) == FlipY(Cross(a, b))
  {
  }

  lemma DotNegRight(a: Vec3, b: Vec3)
    ensures Dot(a, Neg(b)) == -Dot(a, b)
  {
  }

  /** Flipping y in every column and negating v2 keeps a rotation a rotation. */
  lemma FlippedRotation(m: Matrix, off: Vec3)
    requires IsRotation(m)
    ensures IsRotation(Matrix(FlipY(m.v1), Neg(FlipY(m.v2)), FlipY(m.v3), off))
  {
    var a, b, c := FlipY(m.v1), FlipY(m.v2), FlipY(m.v3);
    FlipYDot(m.v1, m.v1); FlipYDot(m.v2, m.v2); FlipYDot(m.v3, m.v3);
    FlipYDot(m.v1, m.v2); FlipYDot(m.v1, m.v3); FlipYDot(m.v2, m.v3);
    DotNegRight(a, b); DotNegRight(b, c);
    assert Dot(Neg(b), Neg(b)) == Dot(b, b);
    assert Dot(Neg(b), c) == -Dot(b, c);
    FlipYCross(m.v1, m.v2);
  }

  /** The imported camera basis is a proper rotation for every pose. */
  lemma ColmapToC4dIsRotation(q: Quat, t: Vec3)
    ensures IsRotation(ColmapToC4dMatrix(q, t))
  {
    var rt := Transpose(QuatToMatrix(q));
    ColmapToC4dColumns(q, t);
    TransposeIsConjugate(q);
    QuatToMatrixIsRotation(Conj(q));
    FlippedRotation(rt, FlipY(Neg(MulV(rt, t))));
  }
}
