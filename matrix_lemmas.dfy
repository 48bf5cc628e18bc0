/**
 * What the `QgsMatrix4x4` operations promise of each other: the index permutations behind the
 * row-major constructor, `copyDataTo`, the stream operators and `transposed`; the shortcuts of
 * `operator*`, `scale`, `translate`, the vector products and `determinant` agreeing with the plain
 * algebra whenever the flags tell the truth; and the special branches of `inverted`.
 */
module MatrixLemmas {
  import opened Vectors
  import opened Matrices

  // ---------------------------------------------------------------------------------------------
  // Index permutations

  /** Swapping rows and columns twice gives the values back. */
  lemma Swap16Twice(s: seq<real>)
    requires |s| == 16
    ensures Swap16(Swap16(s)) == s
  {
    var t := Swap16(Swap16(s));
    assert t[0] == s[0] && t[1] == s[1] && t[2] == s[2] && t[3] == s[3];
    assert t[4] == s[4] && t[5] == s[5] && t[6] == s[6] && t[7] == s[7];
    assert t[8] == s[8] && t[9] == s[9] && t[10] == s[10] && t[11] == s[11];
    assert t[12] == s[12] && t[13] == s[13] && t[14] == s[14] && t[15] == s[15];
  }

  lemma RowMajorRoundTrip(values: seq<real>, a: Mat)
    requires |values| == 16
    ensures RowMajor(FromRowMajor(values)) == values
    ensures FromRowMajor(RowMajor(a)).m == a.m
  {
    Swap16Twice(values);
    Swap16Twice(a.m);
  }

  /** The 16-argument constructor is the row-major array constructor with its arguments in order. */
  lemma FromArgsIsFromRowMajor(m11: real, m12: real, m13: real, m14: real,
                               m21: real, m22: real, m23: real, m24: real,
                               m31: real, m32: real, m33: real, m34: real,
                               m41: real, m42: real, m43: real, m44: real)
    ensures FromArgs(m11, m12, m13, m14, m21, m22, m23, m24, m31, m32, m33, m34, m41, m42, m43, m44)
         == FromRowMajor([m11, m12, m13, m14, m21, m22, m23, m24, m31, m32, m33, m34, m41, m42, m43, m44])
  {
  }

  /**
   * The `(values, cols, rows)` constructor copies the `rows` by `cols` block stored column by
   * column and takes everything outside it from the identity.
   */
  lemma FromBlockCopiesBlock(values: seq<real>, cols: int, rows: int)
    requires 0 <= cols && 0 <= rows && cols * rows <= |values|
    ensures forall row, col | 0 <= row < rows && 0 <= col < cols && row < 4 && col < 4
                                && col * rows + row < |values| ::
      At(FromBlock(values, cols, rows), row, col) == values[col * rows + row]
    ensures forall row, col | 0 <= row < 4 && 0 <= col < 4 && (rows <= row || cols <= col) ::
      At(FromBlock(values, cols, rows), row, col) == if row == col then 1.0 else 0.0
  {
  }

  /** A full 4x4 block is copied column by column; an empty one leaves the identity. */
  lemma FromBlockExtremes(values: seq<real>)
    requires |values| == 16
    ensures FromBlock(values, 4, 4).m == values
    ensures FromBlock(values, 0, 0).m == IdentityEntries
  {
    var a := FromBlock(values, 4, 4);
    forall col, row | 0 <= col < 4 && 0 <= row < 4 ensures Entry(a.m, col, row) == Entry(values, col, row) {
      assert At(a, row, col) == BlockCell(values, 4, 4, col, row);
    }
    SameEntries(a.m, values);
    var b := FromBlock(values, 0, 0);
    forall col, row | 0 <= col < 4 && 0 <= row < 4 ensures Entry(b.m, col, row) == Entry(IdentityEntries, col, row) {
      assert At(b, row, col) == BlockCell(values, 0, 0, col, row);
    }
    SameEntries(b.m, IdentityEntries);
  }

  lemma TransposedTwice(a: Mat)
    ensures Transposed(Transposed(a)).m == a.m
  {
    Swap16Twice(a.m);
  }

  /** `copyDataTo` writes exactly the entries `transposed()` stores. */
  lemma RowMajorIsTransposedStorage(a: Mat)
    ensures RowMajor(a) == Transposed(a).m
  {
  }

  lemma RowIsTransposedColumn(a: Mat, index: int)
    requires 0 <= index < 4
    ensures Row(a, index) == Column(Transposed(a), index)
  {
  }

  /** `operator<<` followed by `operator>>` restores all 16 entries. */
  lemma StreamRoundTrip(a: Mat, fuzzyOrthonormal: bool)
    ensures StreamRead(RowMajor(a), fuzzyOrthonormal).m == a.m
  {
    assert StreamValues(RowMajor(a)) == RowMajor(a);
    RowMajorRoundTrip(RowMajor(a), a);
  }

  // ---------------------------------------------------------------------------------------------
  // Entrywise arithmetic and comparison

  lemma SumDifferenceInverse(a: Mat, b: Mat)
    ensures Difference(Sum(a, b), b).m == a.m
    ensures Sum(a, Negated(b)).m == Difference(a, b).m
    ensures Negated(Negated(a)).m == a.m
  {
  }

  lemma DivUndoesTimes(a: Mat, factor: real)
    requires factor != 0.0
    ensures DivScalar(TimesScalar(a, factor), factor).m == a.m
  {
    var d := DivScalar(TimesScalar(a, factor), factor);
    forall i | 0 <= i < 16 ensures d.m[i] == a.m[i] {
      assert d.m[i] == (a.m[i] * factor) / factor;
    }
  }

  /** `==` holds exactly when every `operator()(row, col)` agrees, and `!=` is its negation. */
  lemma EqualityIsEntrywise(a: Mat, b: Mat)
    ensures Equal(a, b) <==> forall row, col | 0 <= row < 4 && 0 <= col < 4 :: At(a, row, col) == At(b, row, col)
    ensures NotEqual(a, b) <==> !Equal(a, b)
  {
    if forall row, col | 0 <= row < 4 && 0 <= col < 4 :: At(a, row, col) == At(b, row, col) {
      forall col, row | 0 <= col < 4 && 0 <= row < 4 ensures Entry(a.m, col, row) == Entry(b.m, col, row) {
        assert At(a, row, col) == At(b, row, col);
      }
      SameEntries(a.m, b.m);
    }
    if !NotEqual(a, b) {
      assert forall i | 0 <= i < 16 :: a.m[i] == b.m[i];
      assert a.m == b.m;
    }
  }

  lemma IdentityIsIdentity()
    ensures IsIdentity(IdentityMatrix()) && Describes(IdentityMatrix())
    ensures IsIdentity(Filled(0.0)) == false
  {
    assert Filled(0.0).m[0] != IdentityEntries[0];
  }

  /** A truthful Identity flag means the entries are the identity's. */
  lemma IdentityFlagMeansIdentity(a: Mat)
    requires Describes(a) && IsIdentity(a)
    ensures a.m == IdentityEntries
  {
    if a.flags == Identity {
      assert a.m[0] == 1.0 && a.m[1] == 0.0 && a.m[2] == 0.0 && a.m[3] == 0.0;
      assert a.m[4] == 0.0 && a.m[5] == 1.0 && a.m[6] == 0.0 && a.m[7] == 0.0;
      assert a.m[8] == 0.0 && a.m[9] == 0.0 && a.m[10] == 1.0 && a.m[11] == 0.0;
      assert a.m[12] == 0.0 && a.m[13] == 0.0 && a.m[14] == 0.0 && a.m[15] == 1.0;
    }
  }

  /** Anything tagged General is truthfully described, so every mutator that resets the tag is safe. */
  lemma GeneralDescribes(a: Mat)
    requires a.flags == General
    ensures Describes(a)
  {
  }

  // ---------------------------------------------------------------------------------------------
  // Products

  lemma ProductEntries(a: Mat, b: Mat)
    ensures Product(a, b).m ==
      [Dot4(a, b, 0, 0), Dot4(a, b, 1, 0), Dot4(a, b, 2, 0), Dot4(a, b, 3, 0),
       Dot4(a, b, 0, 1), Dot4(a, b, 1, 1), Dot4(a, b, 2, 1), Dot4(a, b, 3, 1),
       Dot4(a, b, 0, 2), Dot4(a, b, 1, 2), Dot4(a, b, 2, 2), Dot4(a, b, 3, 2),
       Dot4(a, b, 0, 3), Dot4(a, b, 1, 3), Dot4(a, b, 2, 3), Dot4(a, b, 3, 3)]
  {
  }

  /** The entries of a matrix whose only content is a scale and a translation. */
  function ScaleTranslate(sx: real, sy: real, sz: real, tx: real, ty: real, tz: real): Entries {
    [sx, 0.0, 0.0, 0.0, 0.0, sy, 0.0, 0.0, 0.0, 0.0, sz, 0.0, tx, ty, tz, 1.0]
  }

  lemma ScaleTranslateShape(a: Mat)
    requires Describes(a) && a.flags < Rotation2D
    ensures a.m == ScaleTranslate(a.m[0], a.m[5], a.m[10], a.m[12], a.m[13], a.m[14])
  {
    assert a.flags & Perspective == 0;
    assert a.flags & (Rotation | Rotation2D) == 0 && a.flags & Rotation == 0;
  }

  lemma FastProductOfScaleTranslate(a: Mat, b: Mat, sx: real, sy: real, sz: real, tx: real, ty: real, tz: real,
                                    ux: real, uy: real, uz: real, vx: real, vy: real, vz: real,
                                    px: real, py: real, pz: real, qx: real, qy: real, qz: real)
    requires a.m == ScaleTranslate(sx, sy, sz, tx, ty, tz)
    requires b.m == ScaleTranslate(ux, uy, uz, vx, vy, vz)
    requires px == sx * ux && py == sy * uy && pz == sz * uz
    requires qx == tx + sx * vx && qy == ty + sy * vy && qz == tz + sz * vz
    ensures FastProduct(a, b) == ScaleTranslate(px, py, pz, qx, qy, qz)
  {
    var f := FastProduct(a, b);
    assert f[0] == px && f[5] == py && f[10] == pz;
    assert f[12] == qx && f[13] == qy && f[14] == qz;
    assert f[1] == 0.0 && f[2] == 0.0 && f[3] == 0.0 && f[4] == 0.0 && f[6] == 0.0 && f[7] == 0.0;
    assert f[8] == 0.0 && f[9] == 0.0 && f[11] == 0.0 && f[15] == 1.0;
  }

  /** Scale-and-translate matrices multiply by multiplying the scales and composing the translations. */
  lemma ProductOfScaleTranslate(a: Mat, b: Mat, sx: real, sy: real, sz: real, tx: real, ty: real, tz: real,
                                ux: real, uy: real, uz: real, vx: real, vy: real, vz: real,
                                px: real, py: real, pz: real, qx: real, qy: real, qz: real)
    requires a.m == ScaleTranslate(sx, sy, sz, tx, ty, tz)
    requires b.m == ScaleTranslate(ux, uy, uz, vx, vy, vz)
    requires px == sx * ux && py == sy * uy && pz == sz * uz
    requires qx == tx + sx * vx && qy == ty + sy * vy && qz == tz + sz * vz
    ensures Product(a, b).m == ScaleTranslate(px, py, pz, qx, qy, qz)
  {
    ProductEntries(a, b);
    assert Dot4(a, b, 0, 0) == px;
    assert Dot4(a, b, 1, 0) == 0.0;
    assert Dot4(a, b, 2, 0) == 0.0;
    assert Dot4(a, b, 3, 0) == 0.0;
    assert Dot4(a, b, 0, 1) == 0.0;
    assert Dot4(a, b, 1, 1) == py;
    assert Dot4(a, b, 2, 1) == 0.0;
    assert Dot4(a, b, 3, 1) == 0.0;
    assert Dot4(a, b, 0, 2) == 0.0;
    assert Dot4(a, b, 1, 2) == 0.0;
    assert Dot4(a, b, 2, 2) == pz;
    assert Dot4(a, b, 3, 2) == 0.0;
    assert Dot4(a, b, 0, 3) == qx;
    assert Dot4(a, b, 1, 3) == qy;
    assert Dot4(a, b, 2, 3) == qz;
    assert Dot4(a, b, 3, 3) == 1.0;
  }

  /**
   * The central fact about `operator*`: when both operands' flags tell the truth, the
   * Translation/Scale shortcut computes the same matrix as the general product.
   */
  lemma MulIsProduct(a: Mat, b: Mat)
    requires Describes(a) && Describes(b)
    ensures Mul(a, b) == Product(a, b)
  {
    if (a.flags | b.flags) < Rotation2D {
      assert a.flags < Rotation2D && b.flags < Rotation2D;
      ScaleTranslateShape(a);
      ScaleTranslateShape(b);
      var sx, sy, sz, tx, ty, tz := a.m[0], a.m[5], a.m[10], a.m[12], a.m[13], a.m[14];
      var ux, uy, uz, vx, vy, vz := b.m[0], b.m[5], b.m[10], b.m[12], b.m[13], b.m[14];
      var px, py, pz, qx, qy, qz := sx * ux, sy * uy, sz * uz, tx + sx * vx, ty + sy * vy, tz + sz * vz;
      FastProductOfScaleTranslate(a, b, sx, sy, sz, tx, ty, tz, ux, uy, uz, vx, vy, vz, px, py, pz, qx, qy, qz);
      ProductOfScaleTranslate(a, b, sx, sy, sz, tx, ty, tz, ux, uy, uz, vx, vy, vz, px, py, pz, qx, qy, qz);
    }
  }

  lemma IdentityTimes(a: Mat)
    ensures Product(IdentityMatrix(), a).m == a.m
  {
    var i := IdentityMatrix();
    ProductEntries(i, a);
    assert Dot4(i, a, 0, 0) == a.m[0] && Dot4(i, a, 1, 0) == a.m[1] && Dot4(i, a, 2, 0) == a.m[2] && Dot4(i, a, 3, 0) == a.m[3];
    assert Dot4(i, a, 0, 1) == a.m[4] && Dot4(i, a, 1, 1) == a.m[5] && Dot4(i, a, 2, 1) == a.m[6] && Dot4(i, a, 3, 1) == a.m[7];
    assert Dot4(i, a, 0, 2) == a.m[8] && Dot4(i, a, 1, 2) == a.m[9] && Dot4(i, a, 2, 2) == a.m[10] && Dot4(i, a, 3, 2) == a.m[11];
    assert Dot4(i, a, 0, 3) == a.m[12] && Dot4(i, a, 1, 3) == a.m[13] && Dot4(i, a, 2, 3) == a.m[14] && Dot4(i, a, 3, 3) == a.m[15];
  }

  lemma TimesIdentity(a: Mat)
    ensures Product(a, IdentityMatrix()).m == a.m
  {
    var i := IdentityMatrix();
    ProductEntries(a, i);
    assert Dot4(a, i, 0, 0) == a.m[0] && Dot4(a, i, 1, 0) == a.m[1] && Dot4(a, i, 2, 0) == a.m[2] && Dot4(a, i, 3, 0) == a.m[3];
    assert Dot4(a, i, 0, 1) == a.m[4] && Dot4(a, i, 1, 1) == a.m[5] && Dot4(a, i, 2, 1) == a.m[6] && Dot4(a, i, 3, 1) == a.m[7];
    assert Dot4(a, i, 0, 2) == a.m[8] && Dot4(a, i, 1, 2) == a.m[9] && Dot4(a, i, 2, 2) == a.m[10] && Dot4(a, i, 3, 2) == a.m[11];
    assert Dot4(a, i, 0, 3) == a.m[12] && Dot4(a, i, 1, 3) == a.m[13] && Dot4(a, i, 2, 3) == a.m[14] && Dot4(a, i, 3, 3) == a.m[15];
  }

  predicate LastRowAffine(a: Mat) {
    a.m[3] == 0.0 && a.m[7] == 0.0 && a.m[11] == 0.0 && a.m[15] == 1.0
  }

  predicate NoTranslation(a: Mat) { a.m[12] == 0.0 && a.m[13] == 0.0 && a.m[14] == 0.0 }

  predicate NoZCoupling(a: Mat) { a.m[2] == 0.0 && a.m[6] == 0.0 && a.m[8] == 0.0 && a.m[9] == 0.0 }

  predicate NoXYCoupling(a: Mat) { a.m[1] == 0.0 && a.m[4] == 0.0 }

  predicate UnitDiagonal(a: Mat) { a.m[0] == 1.0 && a.m[5] == 1.0 && a.m[10] == 1.0 }

  lemma ProductKeepsLastRow(a: Mat, b: Mat)
    requires LastRowAffine(a) && LastRowAffine(b)
    ensures LastRowAffine(Product(a, b))
  {
    ProductEntries(a, b);
    assert Dot4(a, b, 3, 0) == 0.0 && Dot4(a, b, 3, 1) == 0.0 && Dot4(a, b, 3, 2) == 0.0;
    assert Dot4(a, b, 3, 3) == 1.0;
  }

  lemma ProductKeepsNoTranslation(a: Mat, b: Mat)
    requires LastRowAffine(a) && LastRowAffine(b) && NoTranslation(a) && NoTranslation(b)
    ensures NoTranslation(Product(a, b))
  {
    ProductEntries(a, b);
    assert Dot4(a, b, 0, 3) == 0.0 && Dot4(a, b, 1, 3) == 0.0 && Dot4(a, b, 2, 3) == 0.0;
  }

  lemma ProductKeepsNoZCoupling(a: Mat, b: Mat)
    requires LastRowAffine(a) && LastRowAffine(b) && NoZCoupling(a) && NoZCoupling(b)
    ensures NoZCoupling(Product(a, b))
  {
    ProductEntries(a, b);
    assert Dot4(a, b, 2, 0) == 0.0 && Dot4(a, b, 2, 1) == 0.0;
    assert Dot4(a, b, 0, 2) == 0.0 && Dot4(a, b, 1, 2) == 0.0;
  }

  lemma ProductKeepsNoXYCoupling(a: Mat, b: Mat)
    requires LastRowAffine(a) && LastRowAffine(b) && NoZCoupling(a) && NoZCoupling(b)
    requires NoXYCoupling(a) && NoXYCoupling(b)
    ensures NoXYCoupling(Product(a, b))
  {
    ProductEntries(a, b);
    assert Dot4(a, b, 1, 0) == 0.0 && Dot4(a, b, 0, 1) == 0.0;
  }

  lemma ProductKeepsUnitDiagonal(a: Mat, b: Mat)
    requires LastRowAffine(a) && LastRowAffine(b) && NoZCoupling(a) && NoZCoupling(b)
    requires NoXYCoupling(a) && NoXYCoupling(b) && UnitDiagonal(a) && UnitDiagonal(b)
    ensures UnitDiagonal(Product(a, b))
  {
    ProductEntries(a, b);
    assert Dot4(a, b, 0, 0) == 1.0 && Dot4(a, b, 1, 1) == 1.0 && Dot4(a, b, 2, 2) == 1.0;
  }

  /** The general product keeps the flags truthful: OR-ing the tags is sound. */
  lemma ProductDescribes(a: Mat, b: Mat)
    requires Describes(a) && Describes(b)
    ensures Describes(Product(a, b))
  {
    var p := Product(a, b);
    if p.flags & Perspective == 0 {
      assert a.flags & Perspective == 0 && b.flags & Perspective == 0;
      ProductKeepsLastRow(a, b);
      if p.flags & Translation == 0 {
        assert a.flags & Translation == 0 && b.flags & Translation == 0;
        ProductKeepsNoTranslation(a, b);
      }
      if p.flags & Rotation == 0 {
        assert a.flags & Rotation == 0 && b.flags & Rotation == 0;
        ProductKeepsNoZCoupling(a, b);
        if p.flags & (Rotation | Rotation2D) == 0 {
          assert a.flags & (Rotation | Rotation2D) == 0 && b.flags & (Rotation | Rotation2D) == 0;
          ProductKeepsNoXYCoupling(a, b);
          if p.flags & (Rotation | Rotation2D | Scale) == 0 {
            assert a.flags & (Rotation | Rotation2D | Scale) == 0;
            assert b.flags & (Rotation | Rotation2D | Scale) == 0;
            ProductKeepsUnitDiagonal(a, b);
          }
        }
      }
    }
  }

  /** `operator*` and `*=` therefore keep the flags truthful too. */
  lemma MulDescribes(a: Mat, b: Mat)
    requires Describes(a) && Describes(b)
    ensures Describes(Mul(a, b))
  {
    MulIsProduct(a, b);
    ProductDescribes(a, b);
  }

  /** A transposed translation is tagged General, so `transposed()` keeps the flags truthful. */
  lemma TransposedDescribes(a: Mat)
    requires Describes(a)
    ensures Describes(Transposed(a))
  {
    var t := Transposed(a);
    if a.flags & Translation == 0 && a.flags & Perspective == 0 {
      assert t.m[3] == a.m[12] && t.m[7] == a.m[13] && t.m[11] == a.m[14] && t.m[15] == a.m[15];
      assert t.m[12] == a.m[3] && t.m[13] == a.m[7] && t.m[14] == a.m[11];
      assert t.m[2] == a.m[8] && t.m[6] == a.m[9] && t.m[8] == a.m[2] && t.m[9] == a.m[6];
      assert t.m[1] == a.m[4] && t.m[4] == a.m[1];
      assert t.m[0] == a.m[0] && t.m[5] == a.m[5] && t.m[10] == a.m[10];
    }
  }

  // ---------------------------------------------------------------------------------------------
  // Matrix times vector

  lemma Times4ByIdentity(v: Vec4)
    ensures Times4(IdentityMatrix(), v) == v
  {
  }

  /** The row-vector product is the column-vector product with the transpose. */
  lemma VecTimes4IsTransposed(v: Vec4, a: Mat)
    ensures VecTimes4(v, a) == Times4(Transposed(a), v)
  {
    var t := Transposed(a);
    assert M(t, 0, 1) == M(a, 1, 0) && M(t, 0, 2) == M(a, 2, 0) && M(t, 0, 3) == M(a, 3, 0);
    assert M(t, 1, 0) == M(a, 0, 1) && M(t, 2, 0) == M(a, 0, 2) && M(t, 3, 0) == M(a, 0, 3);
    assert M(t, 1, 2) == M(a, 2, 1) && M(t, 1, 3) == M(a, 3, 1) && M(t, 2, 3) == M(a, 3, 2);
    assert M(t, 2, 1) == M(a, 1, 2) && M(t, 3, 1) == M(a, 1, 3) && M(t, 3, 2) == M(a, 2, 3);
    assert M(t, 0, 0) == M(a, 0, 0) && M(t, 1, 1) == M(a, 1, 1) && M(t, 2, 2) == M(a, 2, 2);
    assert M(t, 3, 3) == M(a, 3, 3);
  }

  /**
   * `matrix * QgsVector3D` on a truthfully tagged affine matrix is the homogeneous product with
   * w = 1, whichever shortcut it takes, and needs no division.
   */
  lemma Times3IsHomogeneous(a: Mat, v: Vec3)
    requires Describes(a) && a.flags & Perspective == 0
    ensures HomogeneousW(a, v) == 1.0
    ensures Times3(a, v) == Xyz(Times4(a, FromVec3(v, 1.0)))
  {
    if a.flags < Rotation {
      assert a.flags & Rotation == 0;
    }
    if a.flags < Rotation2D {
      assert a.flags & (Rotation | Rotation2D) == 0;
    }
    if a.flags == Identity {
      assert a.flags & (Rotation | Rotation2D | Scale) == 0;
    }
  }

  /** `mapVector` is the homogeneous product with w = 0: a direction is never translated. */
  lemma MapVectorIsDirection(a: Mat, v: Vec3)
    requires Describes(a)
    ensures MapVector(a, v) == Xyz(Times4(a, FromVec3(v, 0.0)))
  {
    if a.flags < Rotation2D {
      assert a.flags & Perspective == 0 && a.flags & Rotation == 0;
      assert a.flags & (Rotation | Rotation2D) == 0;
    }
    if a.flags < Scale {
      assert a.flags & (Rotation | Rotation2D | Scale) == 0;
    }
  }

  // ---------------------------------------------------------------------------------------------
  // Determinant

  /**
   * `determinant()`'s shortcuts agree with the full expansion whenever the flags tell the truth
   * and at least one of Scale or Perspective is set. Without either, the source returns 1 on the
   * assumption that a rotation tag means an orthonormal rotation, which the tag alone does not say.
   */
  lemma DeterminantIsDet4(a: Mat)
    requires Describes(a)
    requires a.flags & (Rotation2D | Rotation) == 0 || a.flags & (Scale | Perspective) != 0
    ensures Determinant(a) == Det4(a)
  {
    if a.flags & Perspective == 0 {
      assert a.m[3] == 0.0 && a.m[7] == 0.0 && a.m[11] == 0.0 && a.m[15] == 1.0;
      assert Det3(a, 0, 1, 2, 1, 2, 3) == 0.0;
      assert Det3(a, 1, 2, 3, 1, 2, 3) == Det2(a, 1, 2, 1, 2);
      assert Det3(a, 0, 2, 3, 1, 2, 3) == Det2(a, 0, 2, 1, 2);
      assert Det3(a, 0, 1, 3, 1, 2, 3) == Det2(a, 0, 1, 1, 2);
      assert Det4(a) == Det3(a, 0, 1, 2, 0, 1, 2);
      if a.flags < Rotation2D {
        assert a.flags & (Rotation | Rotation2D) == 0 && a.flags & Rotation == 0;
        assert Det3(a, 0, 1, 2, 0, 1, 2) == a.m[0] * (a.m[5] * a.m[10]);
      }
      if a.flags & !(Translation | Rotation2D | Rotation) == Identity {
        assert a.flags & (Rotation | Rotation2D | Scale) == 0;
      }
    }
  }

  // ---------------------------------------------------------------------------------------------
  // Inverse

  lemma ScaleTranslateInverse(inv: Mat, a: Mat, sx: real, sy: real, sz: real, tx: real, ty: real, tz: real,
                               ix: real, iy: real, iz: real, ux: real, uy: real, uz: real)
    requires ix * sx == 1.0 && iy * sy == 1.0 && iz * sz == 1.0
    requires ux == -tx * ix && uy == -ty * iy && uz == -tz * iz
    requires a.m == ScaleTranslate(sx, sy, sz, tx, ty, tz)
    requires inv.m == ScaleTranslate(ix, iy, iz, ux, uy, uz)
    ensures Product(inv, a).m == IdentityEntries
    ensures Product(a, inv).m == IdentityEntries
  {
    assert ScaleTranslate(1.0, 1.0, 1.0, 0.0, 0.0, 0.0) == IdentityEntries;
    assert sx * ux == -tx * (ix * sx);
    assert sy * uy == -ty * (iy * sy);
    assert sz * uz == -tz * (iz * sz);
    ProductOfScaleTranslate(inv, a, ix, iy, iz, ux, uy, uz, sx, sy, sz, tx, ty, tz, 1.0, 1.0, 1.0, 0.0, 0.0, 0.0);
    ProductOfScaleTranslate(a, inv, sx, sy, sz, tx, ty, tz, ix, iy, iz, ux, uy, uz, 1.0, 1.0, 1.0, 0.0, 0.0, 0.0);
  }

  lemma TranslationInverseEntries(a: Mat, ux: real, uy: real, uz: real)
    requires a.flags == Translation
    requires ux == -a.m[12] && uy == -a.m[13] && uz == -a.m[14]
    ensures Inverted(a).matrix.m == ScaleTranslate(1.0, 1.0, 1.0, ux, uy, uz)
  {
  }

  lemma ScaleInverseEntries(a: Mat, ix: real, iy: real, iz: real, ux: real, uy: real, uz: real)
    requires Identity < a.flags < Rotation2D && a.flags != Translation && Inverted(a).invertible
    requires a.m[0] != 0.0 && a.m[5] != 0.0 && a.m[10] != 0.0
    requires ix == 1.0 / a.m[0] && iy == 1.0 / a.m[5] && iz == 1.0 / a.m[10]
    requires ux == -a.m[12] * ix && uy == -a.m[13] * iy && uz == -a.m[14] * iz
    ensures Inverted(a).matrix.m == ScaleTranslate(ix, iy, iz, ux, uy, uz)
  {
    var inv := Inverted(a).matrix.m;
    assert inv[0] == ix && inv[5] == iy && inv[10] == iz;
    assert inv[12] == ux && inv[13] == uy && inv[14] == uz;
    assert inv[1] == 0.0 && inv[2] == 0.0 && inv[3] == 0.0 && inv[4] == 0.0 && inv[6] == 0.0 && inv[7] == 0.0;
    assert inv[8] == 0.0 && inv[9] == 0.0 && inv[11] == 0.0 && inv[15] == 1.0;
  }

  /** `inverted()` of a pure translation negates it, and undoes it on either side. */
  lemma TranslationInverse(a: Mat)
    requires Describes(a) && a.flags == Translation
    ensures Product(Inverted(a).matrix, a).m == IdentityEntries
    ensures Product(a, Inverted(a).matrix).m == IdentityEntries
  {
    ScaleTranslateShape(a);
    var tx, ty, tz := a.m[12], a.m[13], a.m[14];
    var ux, uy, uz := -tx, -ty, -tz;
    TranslationInverseEntries(a, ux, uy, uz);
    assert ux == -tx * 1.0 && uy == -ty * 1.0 && uz == -tz * 1.0;
    ScaleTranslateInverse(Inverted(a).matrix, a, 1.0, 1.0, 1.0, tx, ty, tz, 1.0, 1.0, 1.0, ux, uy, uz);
  }

  /** The Translation | Scale branch: reciprocal diagonal, rescaled negated translation. */
  lemma ScaleInverse(a: Mat)
    requires Describes(a) && Identity < a.flags < Rotation2D && a.flags != Translation
    requires Inverted(a).invertible
    ensures Product(Inverted(a).matrix, a).m == IdentityEntries
    ensures Product(a, Inverted(a).matrix).m == IdentityEntries
  {
    ScaleTranslateShape(a);
    var sx, sy, sz, tx, ty, tz := a.m[0], a.m[5], a.m[10], a.m[12], a.m[13], a.m[14];
    assert sx != 0.0 && sy != 0.0 && sz != 0.0;
    var ix, iy, iz := 1.0 / sx, 1.0 / sy, 1.0 / sz;
    var ux, uy, uz := -tx * ix, -ty * iy, -tz * iz;
    ScaleInverseEntries(a, ix, iy, iz, ux, uy, uz);
    ScaleTranslateInverse(Inverted(a).matrix, a, sx, sy, sz, tx, ty, tz, ix, iy, iz, ux, uy, uz);
  }

  /** The upper 3x3 block's columns are orthonormal: what a rotation tag is taken to mean. */
  predicate OrthonormalColumns(a: Mat) {
    var m := a.m;
    m[0] * m[0] + m[1] * m[1] + m[2] * m[2] == 1.0 &&
    m[4] * m[4] + m[5] * m[5] + m[6] * m[6] == 1.0 &&
    m[8] * m[8] + m[9] * m[9] + m[10] * m[10] == 1.0 &&
    m[0] * m[4] + m[1] * m[5] + m[2] * m[6] == 0.0 &&
    m[0] * m[8] + m[1] * m[9] + m[2] * m[10] == 0.0 &&
    m[4] * m[8] + m[5] * m[9] + m[6] * m[10] == 0.0
  }

  lemma OrthonormalBranch(a: Mat)
    requires a.flags & (Rotation2D | Rotation) != 0 && a.flags & !(Translation | Rotation2D | Rotation) == Identity
    ensures Inverted(a) == Inverse(OrthonormalInverse(a), true)
  {
  }

  /** Each entry of a product is a row of the left operand dotted with a column of the right. */
  lemma ProductIsRowsByColumns(a: Mat, b: Mat)
    ensures forall row, col | 0 <= row < 4 && 0 <= col < 4 :: Dot4(a, b, row, col) == Dot(Row(a, row), Column(b, col))
  {
  }

  /**
   * The rows of the rigid inverse dotted with the columns of the matrix: orthonormal columns make
   * the rotation part the identity, and the negated rotated translation cancels the translation.
   */
  lemma RigidDots(c00: real, c01: real, c02: real, c10: real, c11: real, c12: real,
                  c20: real, c21: real, c22: real, t0: real, t1: real, t2: real,
                  u0: real, u1: real, u2: real)
    requires u0 == -(c00 * t0 + c01 * t1 + c02 * t2)
    requires u1 == -(c10 * t0 + c11 * t1 + c12 * t2)
    requires u2 == -(c20 * t0 + c21 * t1 + c22 * t2)
    requires c00 * c00 + c01 * c01 + c02 * c02 == 1.0
    requires c10 * c10 + c11 * c11 + c12 * c12 == 1.0
    requires c20 * c20 + c21 * c21 + c22 * c22 == 1.0
    requires c00 * c10 + c01 * c11 + c02 * c12 == 0.0
    requires c00 * c20 + c01 * c21 + c02 * c22 == 0.0
    requires c10 * c20 + c11 * c21 + c12 * c22 == 0.0
    ensures var r0, r1, r2, r3 := Vec4(c00, c01, c02, u0), Vec4(c10, c11, c12, u1), Vec4(c20, c21, c22, u2), Vec4(0.0, 0.0, 0.0, 1.0);
      var k0, k1, k2, k3 := Vec4(c00, c01, c02, 0.0), Vec4(c10, c11, c12, 0.0), Vec4(c20, c21, c22, 0.0), Vec4(t0, t1, t2, 1.0);
      Dot(r0, k0) == 1.0 && Dot(r1, k0) == 0.0 && Dot(r2, k0) == 0.0 && Dot(r3, k0) == 0.0 &&
      Dot(r0, k1) == 0.0 && Dot(r1, k1) == 1.0 && Dot(r2, k1) == 0.0 && Dot(r3, k1) == 0.0 &&
      Dot(r0, k2) == 0.0 && Dot(r1, k2) == 0.0 && Dot(r2, k2) == 1.0 && Dot(r3, k2) == 0.0 &&
      Dot(r0, k3) == 0.0 && Dot(r1, k3) == 0.0 && Dot(r2, k3) == 0.0 && Dot(r3, k3) == 1.0
  {
    InverseRowDots(c00, c01, c02, u0, c00, c01, c02, c10, c11, c12, c20, c21, c22, t0, t1, t2, 1.0, 0.0, 0.0);
    InverseRowDots(c10, c11, c12, u1, c00, c01, c02, c10, c11, c12, c20, c21, c22, t0, t1, t2, 0.0, 1.0, 0.0);
    InverseRowDots(c20, c21, c22, u2, c00, c01, c02, c10, c11, c12, c20, c21, c22, t0, t1, t2, 0.0, 0.0, 1.0);
  }

  /** One row `(p, u)` of the rigid inverse against the four columns of the matrix. */
  lemma InverseRowDots(p0: real, p1: real, p2: real, u: real, c00: real, c01: real, c02: real,
                       c10: real, c11: real, c12: real, c20: real, c21: real, c22: real,
                       t0: real, t1: real, t2: real, e0: real, e1: real, e2: real)
    requires u == -(p0 * t0 + p1 * t1 + p2 * t2)
    requires p0 * c00 + p1 * c01 + p2 * c02 == e0
    requires p0 * c10 + p1 * c11 + p2 * c12 == e1
    requires p0 * c20 + p1 * c21 + p2 * c22 == e2
    ensures Dot(Vec4(p0, p1, p2, u), Vec4(c00, c01, c02, 0.0)) == e0
    ensures Dot(Vec4(p0, p1, p2, u), Vec4(c10, c11, c12, 0.0)) == e1
    ensures Dot(Vec4(p0, p1, p2, u), Vec4(c20, c21, c22, 0.0)) == e2
    ensures Dot(Vec4(p0, p1, p2, u), Vec4(t0, t1, t2, 1.0)) == 0.0
  {
  }

  lemma RigidInverseProduct(inv: Mat, a: Mat, c00: real, c01: real, c02: real, c10: real, c11: real, c12: real,
                            c20: real, c21: real, c22: real, t0: real, t1: real, t2: real,
                            u0: real, u1: real, u2: real)
    requires Column(a, 0) == Vec4(c00, c01, c02, 0.0) && Column(a, 1) == Vec4(c10, c11, c12, 0.0)
    requires Column(a, 2) == Vec4(c20, c21, c22, 0.0) && Column(a, 3) == Vec4(t0, t1, t2, 1.0)
    requires Row(inv, 0) == Vec4(c00, c01, c02, u0) && Row(inv, 1) == Vec4(c10, c11, c12, u1)
    requires Row(inv, 2) == Vec4(c20, c21, c22, u2) && Row(inv, 3) == Vec4(0.0, 0.0, 0.0, 1.0)
    requires u0 == -(c00 * t0 + c01 * t1 + c02 * t2)
    requires u1 == -(c10 * t0 + c11 * t1 + c12 * t2)
    requires u2 == -(c20 * t0 + c21 * t1 + c22 * t2)
    requires c00 * c00 + c01 * c01 + c02 * c02 == 1.0
    requires c10 * c10 + c11 * c11 + c12 * c12 == 1.0
    requires c20 * c20 + c21 * c21 + c22 * c22 == 1.0
    requires c00 * c10 + c01 * c11 + c02 * c12 == 0.0
    requires c00 * c20 + c01 * c21 + c02 * c22 == 0.0
    requires c10 * c20 + c11 * c21 + c12 * c22 == 0.0
    ensures Product(inv, a).m == IdentityEntries
  {
    RigidDots(c00, c01, c02, c10, c11, c12, c20, c21, c22, t0, t1, t2, u0, u1, u2);
    ProductIsRowsByColumns(inv, a);
  }

  /** The rigid inverse of a matrix given by its rotation columns and translation. */
  lemma RigidInverseOfEntries(c00: real, c01: real, c02: real, c10: real, c11: real, c12: real,
                              c20: real, c21: real, c22: real, t0: real, t1: real, t2: real, flags: Flags)
    requires c00 * c00 + c01 * c01 + c02 * c02 == 1.0
    requires c10 * c10 + c11 * c11 + c12 * c12 == 1.0
    requires c20 * c20 + c21 * c21 + c22 * c22 == 1.0
    requires c00 * c10 + c01 * c11 + c02 * c12 == 0.0
    requires c00 * c20 + c01 * c21 + c02 * c22 == 0.0
    requires c10 * c20 + c11 * c21 + c12 * c22 == 0.0
    ensures var a := Mat([c00, c01, c02, 0.0, c10, c11, c12, 0.0, c20, c21, c22, 0.0, t0, t1, t2, 1.0], flags);
      Product(OrthonormalInverse(a), a).m == IdentityEntries
  {
    var a := Mat([c00, c01, c02, 0.0, c10, c11, c12, 0.0, c20, c21, c22, 0.0, t0, t1, t2, 1.0], flags);
    var inv := OrthonormalInverse(a);
    var u0 := -(c00 * t0 + c01 * t1 + c02 * t2);
    var u1 := -(c10 * t0 + c11 * t1 + c12 * t2);
    var u2 := -(c20 * t0 + c21 * t1 + c22 * t2);
    assert Row(inv, 0) == Vec4(c00, c01, c02, u0) && Row(inv, 1) == Vec4(c10, c11, c12, u1);
    assert Row(inv, 2) == Vec4(c20, c21, c22, u2);
    RigidInverseProduct(inv, a, c00, c01, c02, c10, c11, c12, c20, c21, c22, t0, t1, t2, u0, u1, u2);
  }

  lemma RigidInverse(a: Mat)
    requires LastRowAffine(a) && OrthonormalColumns(a)
    ensures Product(OrthonormalInverse(a), a).m == IdentityEntries
  {
    var m := a.m;
    assert a == Mat([m[0], m[1], m[2], 0.0, m[4], m[5], m[6], 0.0, m[8], m[9], m[10], 0.0, m[12], m[13], m[14], 1.0], a.flags);
    RigidInverseOfEntries(m[0], m[1], m[2], m[4], m[5], m[6], m[8], m[9], m[10], m[12], m[13], m[14], a.flags);
  }

  /** For a rotation and translation, `inverted()` takes the orthonormal shortcut, which undoes the matrix. */
  lemma OrthonormalInverseIsInverse(a: Mat)
    requires Describes(a) && a.flags & (Rotation2D | Rotation) != 0
    requires a.flags & !(Translation | Rotation2D | Rotation) == Identity
    requires OrthonormalColumns(a)
    ensures Inverted(a).invertible
    ensures Product(Inverted(a).matrix, a).m == IdentityEntries
  {
    assert a.flags & Perspective == 0;
    OrthonormalBranch(a);
    RigidInverse(a);
  }

  // ---------------------------------------------------------------------------------------------
  // Scale, translate and orthographic projection

  /** The zero pattern `Describes` promises, spelled out branch by branch of the flag ladder. */
  lemma FlagLadder(a: Mat)
    requires Describes(a)
    ensures a.flags < Perspective ==> LastRowAffine(a)
    ensures a.flags < Rotation ==> LastRowAffine(a) && NoZCoupling(a)
    ensures a.flags < Rotation2D ==> LastRowAffine(a) && NoZCoupling(a) && NoXYCoupling(a)
    ensures a.flags < Scale ==> LastRowAffine(a) && NoZCoupling(a) && NoXYCoupling(a) && UnitDiagonal(a)
    ensures a.flags == Identity || a.flags == Scale ==> NoTranslation(a)
  {
    if a.flags < Perspective { assert a.flags & Perspective == 0; }
    if a.flags < Rotation { assert a.flags & Rotation == 0; }
    if a.flags < Rotation2D { assert a.flags & (Rotation | Rotation2D) == 0; }
    if a.flags < Scale { assert a.flags & (Rotation | Rotation2D | Scale) == 0; }
    if a.flags == Identity || a.flags == Scale { assert a.flags & Translation == 0; }
  }

  /** Right multiplication by a scaling matrix scales the first three columns. */
  lemma ProductWithScale(a: Mat, x: real, y: real, z: real)
    ensures var p := Product(a, ScaleMatrix(x, y, z)).m;
      p[0] == a.m[0] * x && p[1] == a.m[1] * x && p[2] == a.m[2] * x && p[3] == a.m[3] * x &&
      p[4] == a.m[4] * y && p[5] == a.m[5] * y && p[6] == a.m[6] * y && p[7] == a.m[7] * y &&
      p[8] == a.m[8] * z && p[9] == a.m[9] * z && p[10] == a.m[10] * z && p[11] == a.m[11] * z &&
      p[12] == a.m[12] && p[13] == a.m[13] && p[14] == a.m[14] && p[15] == a.m[15]
  {
    ProductEntries(a, ScaleMatrix(x, y, z));
  }

  lemma ScaledUnscaledIsProduct(a: Mat, x: real, y: real, z: real)
    requires a.flags < Scale
    requires LastRowAffine(a) && NoZCoupling(a) && NoXYCoupling(a) && UnitDiagonal(a)
    ensures Scaled(a, x, y, z).m == Product(a, ScaleMatrix(x, y, z)).m
  {
    var s, p := Scaled(a, x, y, z).m, Product(a, ScaleMatrix(x, y, z)).m;
    ProductWithScale(a, x, y, z);
    forall i | 0 <= i < 16
      ensures s[i] == p[i]
    {
      assert i in {0, 1, 2, 3, 4, 5, 6, 7, 8, 9, 10, 11, 12, 13, 14, 15};
    }
  }

  lemma ScaleDiagonalIsProduct(a: Mat, x: real, y: real, z: real)
    requires LastRowAffine(a) && NoZCoupling(a) && NoXYCoupling(a)
    ensures ScaleDiagonal(a.m, x, y, z) == Product(a, ScaleMatrix(x, y, z)).m
  {
    var s, p := ScaleDiagonal(a.m, x, y, z), Product(a, ScaleMatrix(x, y, z)).m;
    ProductWithScale(a, x, y, z);
    forall i | 0 <= i < 16
      ensures s[i] == p[i]
    {
      assert i in {0, 1, 2, 3, 4, 5, 6, 7, 8, 9, 10, 11, 12, 13, 14, 15};
    }
  }

  lemma ScaledScaleIsProduct(a: Mat, x: real, y: real, z: real)
    requires Scale <= a.flags < Rotation2D
    requires LastRowAffine(a) && NoZCoupling(a) && NoXYCoupling(a)
    ensures Scaled(a, x, y, z).m == Product(a, ScaleMatrix(x, y, z)).m
  {
    assert Scaled(a, x, y, z).m == ScaleDiagonal(a.m, x, y, z);
    ScaleDiagonalIsProduct(a, x, y, z);
  }

  lemma ScalePlanarIsProduct(a: Mat, x: real, y: real, z: real)
    requires LastRowAffine(a) && NoZCoupling(a)
    ensures ScalePlanar(a.m, x, y, z) == Product(a, ScaleMatrix(x, y, z)).m
  {
    var s, p := ScalePlanar(a.m, x, y, z), Product(a, ScaleMatrix(x, y, z)).m;
    ProductWithScale(a, x, y, z);
    forall i | 0 <= i < 16
      ensures s[i] == p[i]
    {
      assert i in {0, 1, 2, 3, 4, 5, 6, 7, 8, 9, 10, 11, 12, 13, 14, 15};
    }
  }

  lemma ScaledRotation2DIsProduct(a: Mat, x: real, y: real, z: real)
    requires Rotation2D <= a.flags < Rotation
    requires LastRowAffine(a) && NoZCoupling(a)
    ensures Scaled(a, x, y, z).m == Product(a, ScaleMatrix(x, y, z)).m
  {
    assert Scaled(a, x, y, z).m == ScalePlanar(a.m, x, y, z);
    ScalePlanarIsProduct(a, x, y, z);
  }

  /** The general `scale` branch, on the entries alone. */
  lemma ScaleColumnsIsProduct(a: Mat, x: real, y: real, z: real)
    ensures ScaleColumns(a.m, x, y, z) == Product(a, ScaleMatrix(x, y, z)).m
  {
    var s, p := ScaleColumns(a.m, x, y, z), Product(a, ScaleMatrix(x, y, z)).m;
    ProductWithScale(a, x, y, z);
    forall i | 0 <= i < 16
      ensures s[i] == p[i]
    {
      assert i in {0, 1, 2, 3, 4, 5, 6, 7, 8, 9, 10, 11, 12, 13, 14, 15};
    }
  }

  lemma ScaledGeneralIsProduct(a: Mat, x: real, y: real, z: real)
    requires Rotation <= a.flags
    ensures Scaled(a, x, y, z).m == Product(a, ScaleMatrix(x, y, z)).m
  {
    assert Scaled(a, x, y, z).m == ScaleColumns(a.m, x, y, z);
    ScaleColumnsIsProduct(a, x, y, z);
  }

  /** Every `scale` branch is the right multiplication by the scaling matrix. */
  lemma ScaledIsProduct(a: Mat, x: real, y: real, z: real)
    requires Describes(a)
    ensures Scaled(a, x, y, z).m == Product(a, ScaleMatrix(x, y, z)).m
  {
    FlagLadder(a);
    if a.flags < Scale {
      ScaledUnscaledIsProduct(a, x, y, z);
    } else if a.flags < Rotation2D {
      ScaledScaleIsProduct(a, x, y, z);
    } else if a.flags < Rotation {
      ScaledRotation2DIsProduct(a, x, y, z);
    } else {
      ScaledGeneralIsProduct(a, x, y, z);
    }
  }

  lemma ScaledDescribes(a: Mat, x: real, y: real, z: real)
    requires Describes(a)
    ensures Describes(Scaled(a, x, y, z))
  {
    var r := Scaled(a, x, y, z);
    if r.flags & Perspective == 0 {
      assert a.flags & Perspective == 0;
      assert r.m[3] == 0.0 && r.m[7] == 0.0 && r.m[11] == 0.0 && r.m[15] == 1.0;
      if r.flags & Translation == 0 {
        assert a.flags & Translation == 0;
        assert r.m[12] == 0.0 && r.m[13] == 0.0 && r.m[14] == 0.0;
      }
      if r.flags & Rotation == 0 {
        assert a.flags & Rotation == 0;
        assert r.m[2] == 0.0 && r.m[6] == 0.0 && r.m[8] == 0.0 && r.m[9] == 0.0;
      }
      if r.flags & (Rotation | Rotation2D) == 0 {
        assert a.flags & (Rotation | Rotation2D) == 0;
        assert r.m[1] == 0.0 && r.m[4] == 0.0;
      }
    }
  }

  lemma Scaled2UnscaledIsScaled(a: Mat, x: real, y: real)
    requires a.flags < Scale && a.m[10] == 1.0
    ensures Scaled2(a, x, y).m == Scaled(a, x, y, 1.0).m
  {
    var s, t := Scaled2(a, x, y).m, Scaled(a, x, y, 1.0).m;
    forall i | 0 <= i < 16
      ensures s[i] == t[i]
    {
      assert i in {0, 1, 2, 3, 4, 5, 6, 7, 8, 9, 10, 11, 12, 13, 14, 15};
    }
  }

  lemma Scaled2ScaleIsScaled(a: Mat, x: real, y: real)
    requires Scale <= a.flags < Rotation2D
    ensures Scaled2(a, x, y).m == Scaled(a, x, y, 1.0).m
  {
    var s, t := Scaled2(a, x, y).m, Scaled(a, x, y, 1.0).m;
    forall i | 0 <= i < 16
      ensures s[i] == t[i]
    {
      assert i in {0, 1, 2, 3, 4, 5, 6, 7, 8, 9, 10, 11, 12, 13, 14, 15};
    }
  }

  lemma Scaled2Rotation2DIsScaled(a: Mat, x: real, y: real)
    requires Rotation2D <= a.flags < Rotation
    ensures Scaled2(a, x, y).m == Scaled(a, x, y, 1.0).m
  {
    var s, t := Scaled2(a, x, y).m, Scaled(a, x, y, 1.0).m;
    forall i | 0 <= i < 16
      ensures s[i] == t[i]
    {
      assert i in {0, 1, 2, 3, 4, 5, 6, 7, 8, 9, 10, 11, 12, 13, 14, 15};
    }
  }

  lemma ScaleColumnsByOne(m: Entries, x: real, y: real)
    ensures ScaleColumns(m, x, y, 1.0) == ScaleColumnsXY(m, x, y)
  {
    var s, t := ScaleColumns(m, x, y, 1.0), ScaleColumnsXY(m, x, y);
    forall i | 0 <= i < 16
      ensures s[i] == t[i]
    {
      assert i in {0, 1, 2, 3, 4, 5, 6, 7, 8, 9, 10, 11, 12, 13, 14, 15};
    }
  }

  lemma Scaled2GeneralIsScaled(a: Mat, x: real, y: real)
    requires Rotation <= a.flags
    ensures Scaled2(a, x, y).m == Scaled(a, x, y, 1.0).m
  {
    assert Scaled2(a, x, y).m == ScaleColumnsXY(a.m, x, y);
    assert Scaled(a, x, y, 1.0).m == ScaleColumns(a.m, x, y, 1.0);
    ScaleColumnsByOne(a.m, x, y);
  }

  /** `scale(x, y)` is `scale(x, y, 1)`. */
  lemma Scaled2IsScaled(a: Mat, x: real, y: real)
    requires Describes(a)
    ensures Scaled2(a, x, y) == Scaled(a, x, y, 1.0)
  {
    FlagLadder(a);
    if a.flags < Scale {
      Scaled2UnscaledIsScaled(a, x, y);
    } else if a.flags < Rotation2D {
      Scaled2ScaleIsScaled(a, x, y);
    } else if a.flags < Rotation {
      Scaled2Rotation2DIsScaled(a, x, y);
    } else {
      Scaled2GeneralIsScaled(a, x, y);
    }
  }

  /** Right multiplication by a translation matrix adds the combination of the first three columns to the fourth. */
  lemma ProductWithTranslation(a: Mat, x: real, y: real, z: real)
    ensures var p := Product(a, TranslationMatrix(x, y, z)).m;
      p[0] == a.m[0] && p[1] == a.m[1] && p[2] == a.m[2] && p[3] == a.m[3] &&
      p[4] == a.m[4] && p[5] == a.m[5] && p[6] == a.m[6] && p[7] == a.m[7] &&
      p[8] == a.m[8] && p[9] == a.m[9] && p[10] == a.m[10] && p[11] == a.m[11] &&
      p[12] == a.m[12] + (a.m[0] * x + a.m[4] * y + a.m[8] * z) &&
      p[13] == a.m[13] + (a.m[1] * x + a.m[5] * y + a.m[9] * z) &&
      p[14] == a.m[14] + (a.m[2] * x + a.m[6] * y + a.m[10] * z) &&
      p[15] == a.m[15] + (a.m[3] * x + a.m[7] * y + a.m[11] * z)
  {
    ProductEntries(a, TranslationMatrix(x, y, z));
  }

  lemma TranslatedIdentityIsProduct(a: Mat, x: real, y: real, z: real)
    requires a.flags == Identity
    requires LastRowAffine(a) && NoZCoupling(a) && NoXYCoupling(a) && UnitDiagonal(a) && NoTranslation(a)
    ensures Translated(a, x, y, z).m == Product(a, TranslationMatrix(x, y, z)).m
  {
    var s, p := Translated(a, x, y, z).m, Product(a, TranslationMatrix(x, y, z)).m;
    ProductWithTranslation(a, x, y, z);
    forall i | 0 <= i < 16
      ensures s[i] == p[i]
    {
      assert i in {0, 1, 2, 3, 4, 5, 6, 7, 8, 9, 10, 11, 12, 13, 14, 15};
    }
  }

  lemma TranslatedTranslationIsProduct(a: Mat, x: real, y: real, z: real)
    requires a.flags == Translation
    requires LastRowAffine(a) && NoZCoupling(a) && NoXYCoupling(a) && UnitDiagonal(a)
    ensures Translated(a, x, y, z).m == Product(a, TranslationMatrix(x, y, z)).m
  {
    var s, p := Translated(a, x, y, z).m, Product(a, TranslationMatrix(x, y, z)).m;
    ProductWithTranslation(a, x, y, z);
    forall i | 0 <= i < 16
      ensures s[i] == p[i]
    {
      assert i in {0, 1, 2, 3, 4, 5, 6, 7, 8, 9, 10, 11, 12, 13, 14, 15};
    }
  }

  lemma ScaledShiftIsProduct(a: Mat, x: real, y: real, z: real)
    requires LastRowAffine(a) && NoZCoupling(a) && NoXYCoupling(a) && NoTranslation(a)
    ensures ScaledShift(a.m, x, y, z) == Product(a, TranslationMatrix(x, y, z)).m
  {
    var s, p := ScaledShift(a.m, x, y, z), Product(a, TranslationMatrix(x, y, z)).m;
    ProductWithTranslation(a, x, y, z);
    forall i | 0 <= i < 16
      ensures s[i] == p[i]
    {
      assert i in {0, 1, 2, 3, 4, 5, 6, 7, 8, 9, 10, 11, 12, 13, 14, 15};
    }
  }

  lemma TranslatedScaleIsProduct(a: Mat, x: real, y: real, z: real)
    requires a.flags == Scale
    requires LastRowAffine(a) && NoZCoupling(a) && NoXYCoupling(a) && NoTranslation(a)
    ensures Translated(a, x, y, z).m == Product(a, TranslationMatrix(x, y, z)).m
  {
    assert Translated(a, x, y, z).m == ScaledShift(a.m, x, y, z);
    ScaledShiftIsProduct(a, x, y, z);
  }

  lemma ScaledAddedShiftIsProduct(a: Mat, x: real, y: real, z: real)
    requires LastRowAffine(a) && NoZCoupling(a) && NoXYCoupling(a)
    ensures ScaledAddedShift(a.m, x, y, z) == Product(a, TranslationMatrix(x, y, z)).m
  {
    var s, p := ScaledAddedShift(a.m, x, y, z), Product(a, TranslationMatrix(x, y, z)).m;
    ProductWithTranslation(a, x, y, z);
    forall i | 0 <= i < 16
      ensures s[i] == p[i]
    {
      assert i in {0, 1, 2, 3, 4, 5, 6, 7, 8, 9, 10, 11, 12, 13, 14, 15};
    }
  }

  lemma TranslatedScaleTranslationIsProduct(a: Mat, x: real, y: real, z: real)
    requires a.flags == Translation | Scale
    requires LastRowAffine(a) && NoZCoupling(a) && NoXYCoupling(a)
    ensures Translated(a, x, y, z).m == Product(a, TranslationMatrix(x, y, z)).m
  {
    assert Translated(a, x, y, z).m == ScaledAddedShift(a.m, x, y, z);
    ScaledAddedShiftIsProduct(a, x, y, z);
  }

  /** The planar `translate` branch, on the entries alone. */
  lemma PlanarShiftIsProduct(a: Mat, x: real, y: real, z: real)
    requires LastRowAffine(a) && NoZCoupling(a)
    ensures PlanarShift(a.m, x, y, z) == Product(a, TranslationMatrix(x, y, z)).m
  {
    var s, p := PlanarShift(a.m, x, y, z), Product(a, TranslationMatrix(x, y, z)).m;
    ProductWithTranslation(a, x, y, z);
    forall i | 0 <= i < 16
      ensures s[i] == p[i]
    {
      assert i in {0, 1, 2, 3, 4, 5, 6, 7, 8, 9, 10, 11, 12, 13, 14, 15};
    }
  }

  lemma TranslatedRotation2DIsProduct(a: Mat, x: real, y: real, z: real)
    requires a.flags < Rotation && a.flags !in {Identity, Translation, Scale, Translation | Scale}
    requires LastRowAffine(a) && NoZCoupling(a)
    ensures Translated(a, x, y, z).m == Product(a, TranslationMatrix(x, y, z)).m
  {
    assert Translated(a, x, y, z).m == PlanarShift(a.m, x, y, z);
    PlanarShiftIsProduct(a, x, y, z);
  }

  /** The general `translate` branch, on the entries alone. */
  lemma GeneralShiftIsProduct(a: Mat, x: real, y: real, z: real)
    ensures GeneralShift(a.m, x, y, z) == Product(a, TranslationMatrix(x, y, z)).m
  {
    var s, p := GeneralShift(a.m, x, y, z), Product(a, TranslationMatrix(x, y, z)).m;
    ProductWithTranslation(a, x, y, z);
    forall i | 0 <= i < 16
      ensures s[i] == p[i]
    {
      assert i in {0, 1, 2, 3, 4, 5, 6, 7, 8, 9, 10, 11, 12, 13, 14, 15};
    }
  }

  lemma TranslatedGeneralIsProduct(a: Mat, x: real, y: real, z: real)
    requires Rotation <= a.flags
    ensures Translated(a, x, y, z).m == Product(a, TranslationMatrix(x, y, z)).m
  {
    assert Translated(a, x, y, z).m == GeneralShift(a.m, x, y, z);
    GeneralShiftIsProduct(a, x, y, z);
  }

  /** Every `translate` branch is the right multiplication by the translation matrix. */
  lemma TranslatedIsProduct(a: Mat, x: real, y: real, z: real)
    requires Describes(a)
    ensures Translated(a, x, y, z).m == Product(a, TranslationMatrix(x, y, z)).m
  {
    FlagLadder(a);
    if a.flags == Identity {
      TranslatedIdentityIsProduct(a, x, y, z);
    } else if a.flags == Translation {
      TranslatedTranslationIsProduct(a, x, y, z);
    } else if a.flags == Scale {
      TranslatedScaleIsProduct(a, x, y, z);
    } else if a.flags == Translation | Scale {
      TranslatedScaleTranslationIsProduct(a, x, y, z);
    } else if a.flags < Rotation {
      TranslatedRotation2DIsProduct(a, x, y, z);
    } else {
      TranslatedGeneralIsProduct(a, x, y, z);
    }
  }

  lemma TranslatedDescribes(a: Mat, x: real, y: real, z: real)
    requires Describes(a)
    ensures Describes(Translated(a, x, y, z))
  {
    var r := Translated(a, x, y, z);
    if r.flags & Perspective == 0 {
      FlagLadder(a);
      assert a.flags & Perspective == 0;
      assert r.m[3] == 0.0 && r.m[7] == 0.0 && r.m[11] == 0.0 && r.m[15] == 1.0;
      if r.flags & Rotation == 0 {
        assert a.flags & Rotation == 0;
        assert r.m[2] == 0.0 && r.m[6] == 0.0 && r.m[8] == 0.0 && r.m[9] == 0.0;
      }
      if r.flags & (Rotation | Rotation2D) == 0 {
        assert a.flags & (Rotation | Rotation2D) == 0;
        assert r.m[1] == 0.0 && r.m[4] == 0.0;
      }
      if r.flags & (Rotation | Rotation2D | Scale) == 0 {
        assert a.flags & (Rotation | Rotation2D | Scale) == 0;
        assert r.m[0] == 1.0 && r.m[5] == 1.0 && r.m[10] == 1.0;
      }
    }
  }

  /** `translate(x, y)` is `translate(x, y, 0)`. */
  lemma Translated2IsTranslated(a: Mat, x: real, y: real)
    requires Describes(a)
    ensures Translated2(a, x, y) == Translated(a, x, y, 0.0)
  {
    FlagLadder(a);
    var s, t := Translated2(a, x, y).m, Translated(a, x, y, 0.0).m;
    assert s[12] == t[12] && s[13] == t[13] && s[14] == t[14] && s[15] == t[15];
  }

  /** `ortho` multiplies by a truthfully tagged projection, so the flags stay truthful. */
  lemma OrthoDescribes(a: Mat, left: real, right: real, bottom: real, top: real, nearPlane: real, farPlane: real)
    requires Describes(a)
    ensures Describes(Ortho(a, left, right, bottom, top, nearPlane, farPlane))
  {
    if !OrthoDegenerate(left, right, bottom, top, nearPlane, farPlane) {
      MulDescribes(a, OrthoMatrix(left, right, bottom, top, nearPlane, farPlane));
    }
  }

  // ---------------------------------------------------------------------------------------------
  // optimize

  /** `optimize()` recovers the Identity tag exactly for the identity's entries. */
  lemma OptimizeFindsIdentity(a: Mat, fuzzyOrthonormal: bool)
    ensures Optimize(a, fuzzyOrthonormal).flags == Identity <==> a.m == IdentityEntries
  {
    if a.m == IdentityEntries {
      assert a.m[3] == 0.0 && a.m[12] == 0.0 && a.m[2] == 0.0 && a.m[1] == 0.0 && a.m[0] == 1.0;
    }
    if Optimize(a, fuzzyOrthonormal).flags == Identity {
      var m := a.m;
      assert m[3] == 0.0 && m[7] == 0.0 && m[11] == 0.0 && m[15] == 1.0;
      assert m[12] == 0.0 && m[13] == 0.0 && m[14] == 0.0;
      assert m[2] == 0.0 && m[6] == 0.0 && m[8] == 0.0 && m[9] == 0.0;
      assert m[1] == 0.0 && m[4] == 0.0;
      assert m[0] == 1.0 && m[5] == 1.0 && m[10] == 1.0;
    }
  }
}
