/**
 * The `QgsMatrix4x4` object: sixteen doubles updated in place plus the `flagBits` tag. Every
 * method is proved against the value-level function of `Matrices` that gives its meaning, and
 * every method keeps `Valid()`: the flags keep telling the truth about the entries, which is what
 * makes the shortcuts of `*=`, `scale` and `translate` compute the full product (see
 * `MatrixLemmas.MulIsProduct`, `ScaledIsProduct` and `TranslatedIsProduct`).
 */
module MatrixObject {
  import opened Vectors
  import opened Matrices
  import opened MatrixLemmas

  class Matrix4x4 {
    /** `double m[4][4]`, flattened: `m[col][row]` of the source is `m[4 * col + row]` here. */
    const m: array<real>
    var flagBits: Flags

    /** The value this object currently holds. */
    function Value(): Mat
      reads this, m
      requires m.Length == 16
    {
      Mat(m[..], flagBits)
    }

    ghost predicate Valid()
      reads this, m
    {
      m.Length == 16 && Describes(Value())
    }

    /** The default constructor: the identity. */
    constructor ()
      ensures Valid() && fresh(m)
      ensures Value() == IdentityMatrix()
    {
      m := new real[16];
      flagBits := General;
      new;
      SetToIdentity();
    }

    /** The 16-argument constructor; the arguments are given row by row. */
    constructor FromElements(m11: real, m12: real, m13: real, m14: real,
                             m21: real, m22: real, m23: real, m24: real,
                             m31: real, m32: real, m33: real, m34: real,
                             m41: real, m42: real, m43: real, m44: real)
      ensures Valid() && fresh(m)
      ensures Value() == FromArgs(m11, m12, m13, m14, m21, m22, m23, m24,
                                  m31, m32, m33, m34, m41, m42, m43, m44)
    {
      m := new real[16][m11, m21, m31, m41, m12, m22, m32, m42, m13, m23, m33, m43, m14, m24, m34, m44];
      flagBits := General;
    }

    /** The `const double *values` constructor: 16 values read row by row. */
    constructor FromValues(values: array<real>)
      requires values.Length >= 16
      ensures Valid() && fresh(m)
      ensures Value() == FromRowMajor(values[..16])
    {
      var a := new real[16];
      for row := 0 to 4
        invariant forall c, r | 0 <= c < 4 && 0 <= r < row :: Entry(a[..], c, r) == values[4 * r + c]
      {
        for col := 0 to 4
          invariant forall c, r | 0 <= c < 4 && 0 <= r < 4 && (r < row || (r == row && c < col)) ::
            Entry(a[..], c, r) == values[4 * r + c]
        {
          ghost var before := a[..];
          a[4 * col + row] := values[4 * row + col];
          assert a[..] == before[4 * col + row := values[4 * row + col]];
          WriteCell(before, a[..], col, row, values[4 * row + col]);
        }
      }
      m := a;
      flagBits := General;
      new;
      ghost var target := FromRowMajor(values[..16]);
      forall c, r | 0 <= c < 4 && 0 <= r < 4 ensures Entry(m[..], c, r) == Entry(target.m, c, r) {
        assert At(target, r, c) == values[..16][4 * r + c];
      }
      SameEntries(m[..], target.m);
    }

    /**
     * The `(values, cols, rows)` constructor: the top-left block from `values`, stored column by
     * column with `rows` rows, the rest from the identity.
     */
    constructor FromBlock(values: array<real>, cols: int, rows: int)
      requires 0 <= cols && 0 <= rows && cols * rows <= values.Length
      ensures Valid() && fresh(m)
      ensures Value() == Matrices.FromBlock(values[..], cols, rows)
    {
      var a := new real[16];
      for col := 0 to 4
        invariant forall c, r | 0 <= c < col && 0 <= r < 4 ::
          Entry(a[..], c, r) == BlockCell(values[..], cols, rows, c, r)
      {
        for row := 0 to 4
          invariant forall c, r | 0 <= c < 4 && 0 <= r < 4 && (c < col || (c == col && r < row)) ::
            Entry(a[..], c, r) == BlockCell(values[..], cols, rows, c, r)
        {
          if col < cols && row < rows {
            BlockIndexInRange(col, row, cols, rows);
            a[4 * col + row] := values[col * rows + row];
          } else if col == row {
            a[4 * col + row] := 1.0;
          } else {
            a[4 * col + row] := 0.0;
          }
        }
      }
      m := a;
      flagBits := General;
      new;
      ghost var target := Matrices.FromBlock(values[..], cols, rows);
      forall c, r | 0 <= c < 4 && 0 <= r < 4 ensures Entry(m[..], c, r) == Entry(target.m, c, r) {
        assert At(target, r, c) == BlockCell(values[..], cols, rows, c, r);
      }
      SameEntries(m[..], target.m);
    }

    /** `copyDataTo`: the 16 entries, row by row, into `values`. */
    method CopyDataTo(values: array<real>)
      requires m.Length == 16 && values.Length >= 16 && values != m
      modifies values
      ensures values[..16] == RowMajor(Value())
      ensures values[16..] == old(values[16..])
    {
      for row := 0 to 4
        invariant forall r, c | 0 <= r < row && 0 <= c < 4 :: Entry(values[..16], r, c) == Entry(m[..], c, r)
        invariant values[16..] == old(values[16..])
      {
        for col := 0 to 4
          invariant forall r, c | 0 <= r < 4 && 0 <= c < 4 && (r < row || (r == row && c < col)) ::
            Entry(values[..16], r, c) == Entry(m[..], c, r)
          invariant values[16..] == old(values[16..])
        {
          values[row * 4 + col] := m[4 * col + row];
        }
      }
      ghost var target := RowMajor(Value());
      forall r, c | 0 <= r < 4 && 0 <= c < 4 ensures Entry(values[..16], r, c) == Entry(target, r, c) {
        assert At(Value(), r, c) == target[4 * r + c];
      }
      SameEntries(values[..16], target);
    }

    /** `transposed()`: a new matrix with entry `(c, r)` at `(r, c)`. */
    method Transposed() returns (result: Matrix4x4)
      requires Valid()
      ensures fresh(result) && fresh(result.m) && result.Valid()
      ensures result.Value() == Matrices.Transposed(Value())
    {
      result := new Matrix4x4();
      for row := 0 to 4
        modifies result.m
        invariant forall c, r | 0 <= c < 4 && 0 <= r < row :: Entry(result.m[..], c, r) == Entry(m[..], r, c)
      {
        for col := 0 to 4
          modifies result.m
          invariant forall c, r | 0 <= c < 4 && 0 <= r < 4 && (r < row || (r == row && c < col)) ::
            Entry(result.m[..], c, r) == Entry(m[..], r, c)
        {
          ghost var before := result.m[..];
          result.m[4 * col + row] := m[4 * row + col];
          assert result.m[..] == before[4 * col + row := m[4 * row + col]];
          WriteCell(before, result.m[..], col, row, m[4 * row + col]);
        }
      }
      result.flagBits := if flagBits & Translation != 0 then General else flagBits;
      ghost var target := Matrices.Transposed(Value());
      forall c, r | 0 <= c < 4 && 0 <= r < 4 ensures Entry(result.m[..], c, r) == Entry(target.m, c, r) {
        assert At(target, r, c) == At(Value(), c, r);
      }
      SameEntries(result.m[..], target.m);
      TransposedDescribes(Value());
    }

    /** Assignment through the non-const `operator()(row, col)`. */
    method SetEntry(row: int, col: int, value: real)
      requires Valid() && 0 <= row < 4 && 0 <= col < 4
      modifies this, m
      ensures Valid()
      ensures Value() == WithEntry(old(Value()), row, col, value)
    {
      m[4 * col + row] := value;
      flagBits := General;
    }

    /** `data()`: hands out the storage and, since the caller may write it, forgets the flags. */
    method Data() returns (storage: array<real>)
      requires Valid()
      modifies this
      ensures Valid() && storage == m
      ensures Value() == old(Value()).(flags := General)
    {
      flagBits := General;
      storage := m;
    }

    method SetColumn(index: int, value: Vec4)
      requires Valid() && 0 <= index < 4
      modifies this, m
      ensures Valid()
      ensures Value() == WithColumn(old(Value()), index, value)
    {
      m[4 * index] := value.x;
      m[4 * index + 1] := value.y;
      m[4 * index + 2] := value.z;
      m[4 * index + 3] := value.w;
      flagBits := General;
    }

    method SetRow(index: int, value: Vec4)
      requires Valid() && 0 <= index < 4
      modifies this, m
      ensures Valid()
      ensures Value() == WithRow(old(Value()), index, value)
    {
      m[index] := value.x;
      m[4 + index] := value.y;
      m[8 + index] := value.z;
      m[12 + index] := value.w;
      flagBits := General;
    }

    method SetToIdentity()
      requires m.Length == 16
      modifies this, m
      ensures Valid()
      ensures Value() == IdentityMatrix()
    {
      forall i | 0 <= i < 16 {
        m[i] := if i % 5 == 0 then 1.0 else 0.0;
      }
      flagBits := Identity;
      assert m[..] == IdentityEntries;
    }

    method Fill(value: real)
      requires Valid()
      modifies this, m
      ensures Valid()
      ensures Value() == Filled(value)
    {
      forall i | 0 <= i < 16 {
        m[i] := value;
      }
      flagBits := General;
    }

    /** `+=`; `other` may be this very object. */
    method AddAssign(other: Matrix4x4)
      requires Valid() && other.Valid()
      modifies this, m
      ensures Valid()
      ensures Value() == Sum(old(Value()), old(other.Value()))
    {
      forall i | 0 <= i < 16 {
        m[i] := m[i] + other.m[i];
      }
      flagBits := General;
    }

    /** `-=`; `other` may be this very object. */
    method SubAssign(other: Matrix4x4)
      requires Valid() && other.Valid()
      modifies this, m
      ensures Valid()
      ensures Value() == Difference(old(Value()), old(other.Value()))
    {
      forall i | 0 <= i < 16 {
        m[i] := m[i] - other.m[i];
      }
      flagBits := General;
    }

    /** `*= factor`. */
    method MulAssignScalar(factor: real)
      requires Valid()
      modifies this, m
      ensures Valid()
      ensures Value() == TimesScalar(old(Value()), factor)
    {
      ghost var target := TimesScalar(Value(), factor).m;
      forall i | 0 <= i < 16 {
        m[i] := m[i] * factor;
      }
      flagBits := General;
      assert forall i | 0 <= i < 16 :: m[i] == target[i];
      assert m[..] == target;
    }

    /** `/= divisor`; a zero divisor gives IEEE infinities in the source and is excluded. */
    method DivAssign(divisor: real)
      requires Valid() && divisor != 0.0
      modifies this, m
      ensures Valid()
      ensures Value() == DivScalar(old(Value()), divisor)
    {
      forall i | 0 <= i < 16 {
        m[i] := m[i] / divisor;
      }
      flagBits := General;
    }

    /**
     * `*=`: the operand is copied first, so `other` may be this very object. The flags are OR-ed,
     * and a Translation/Scale result takes the shortcut; otherwise each row is recomputed from
     * the row as it was.
     */
    method MulAssign(other: Matrix4x4)
      requires Valid() && other.Valid()
      modifies this, m
      ensures Valid()
      ensures Value() == Mul(old(Value()), old(other.Value()))
    {
      ghost var a := Value();
      var b := other.Value();
      ghost var r := Mul(a, b);
      flagBits := flagBits | b.flags;
      if flagBits < Rotation2D {
        MulShortcut(a, b);
      } else {
        MulGeneral(a, b);
      }
      assert m[..] == r.m;
      assert Value() == r;
      MulDescribes(a, b);
    }

    /** The Translation/Scale shortcut of `*=`. */
    method MulShortcut(ghost a: Mat, b: Mat)
      requires m.Length == 16 && m[..] == a.m
      modifies m
      ensures m[..] == FastProduct(a, b)
    {
      var x0, x5, x10, x12, x13, x14 := m[0], m[5], m[10], m[12], m[13], m[14];
      m[12] := x12 + x0 * b.m[12];
      m[13] := x13 + x5 * b.m[13];
      m[14] := x14 + x10 * b.m[14];
      m[0] := x0 * b.m[0];
      m[5] := x5 * b.m[5];
      m[10] := x10 * b.m[10];
      FastProductStores(a, b, m[..], x0, x5, x10, x12, x13, x14);
    }

    /** The general path of `*=`, row by row. */
    method MulGeneral(ghost a: Mat, b: Mat)
      requires m.Length == 16 && m[..] == a.m
      modifies m
      ensures m[..] == Product(a, b).m
    {
      MulRow(0, a, b);
      MulRow(1, a, b);
      MulRow(2, a, b);
      MulRow(3, a, b);
      ProductOfCells(m[..], a, b);
    }

    /**
     * One row of the general path of `*=`: row `row` of `a` times each column of `b`, stored in
     * row `row`; the other rows keep their entries.
     */
    method MulRow(row: int, ghost a: Mat, b: Mat)
      requires m.Length == 16 && 0 <= row < 4
      requires forall c | 0 <= c < 4 :: Entry(m[..], c, row) == Entry(a.m, c, row)
      modifies m
      ensures forall c | 0 <= c < 4 :: Entry(m[..], c, row) == Dot4(a, b, row, c)
      ensures forall c, r | 0 <= c < 4 && 0 <= r < 4 && r != row :: Entry(m[..], c, r) == Entry(old(m[..]), c, r)
    {
      assert Entry(m[..], 0, row) == Entry(a.m, 0, row) && Entry(m[..], 1, row) == Entry(a.m, 1, row);
      assert Entry(m[..], 2, row) == Entry(a.m, 2, row) && Entry(m[..], 3, row) == Entry(a.m, 3, row);
      var x0, x1, x2, x3 := m[row], m[4 + row], m[8 + row], m[12 + row];
      var m0 := x0 * b.m[0] + x1 * b.m[1] + x2 * b.m[2] + x3 * b.m[3];
      var m1 := x0 * b.m[4] + x1 * b.m[5] + x2 * b.m[6] + x3 * b.m[7];
      var m2 := x0 * b.m[8] + x1 * b.m[9] + x2 * b.m[10] + x3 * b.m[11];
      var m3 := x0 * b.m[12] + x1 * b.m[13] + x2 * b.m[14] + x3 * b.m[15];
      RowTimesColumn(row, a, b, x0, x1, x2, x3);
      ghost var s0 := m[..];
      m[12 + row] := m3;
      ghost var s1 := m[..];
      assert s1 == s0[4 * 3 + row := m3];
      WriteCell(s0, s1, 3, row, m3);
      m[row] := m0;
      ghost var s2 := m[..];
      assert s2 == s1[4 * 0 + row := m0];
      WriteCell(s1, s2, 0, row, m0);
      m[4 + row] := m1;
      ghost var s3 := m[..];
      assert s3 == s2[4 * 1 + row := m1];
      WriteCell(s2, s3, 1, row, m1);
      m[8 + row] := m2;
      assert m[..] == s3[4 * 2 + row := m2];
      WriteCell(s3, m[..], 2, row, m2);
    }

    /**
     * `scale(x, y, z)`: multiplies by the scaling matrix on the right, touching only the entries
     * the flags say can be non-trivial, then ORs in Scale. Each branch computes its products from
     * the entries as they were, then stores them.
     */
    method Scale(x: real, y: real, z: real)
      requires Valid()
      modifies this, m
      ensures Valid()
      ensures Value() == Scaled(old(Value()), x, y, z)
    {
      ghost var a := Value();
      if flagBits < Matrices.Scale {
        ScaledUnscaledParts(a, x, y, z);
        m[0], m[5], m[10] := x, y, z;
      } else if flagBits < Rotation2D {
        ScaledTakesScaleDiagonal(a, x, y, z);
        StoreScaleDiagonal(a.m, x, y, z);
      } else if flagBits < Rotation {
        ScaledTakesScalePlanar(a, x, y, z);
        StoreScalePlanar(a.m, x, y, z);
      } else {
        ScaledTakesScaleColumns(a, x, y, z);
        StoreScaleColumns(a.m, x, y, z);
      }
      flagBits := flagBits | Matrices.Scale;
      ScaledDescribes(a, x, y, z);
    }

    /** The diagonal-only branch of `scale`: three products. */
    method StoreScaleDiagonal(ghost s: Entries, x: real, y: real, z: real)
      requires m.Length == 16 && m[..] == s
      modifies m
      ensures m[..] == ScaleDiagonal(s, x, y, z)
    {
      var p0, p5, p10 := m[0] * x, m[5] * y, m[10] * z;
      ScaleDiagonalParts(s, x, y, z, p0, p5, p10);
      m[0], m[5], m[10] := p0, p5, p10;
    }

    /** The planar-rotation branch of `scale`: the upper-left 2x2 block and the z scale. */
    method StoreScalePlanar(ghost s: Entries, x: real, y: real, z: real)
      requires m.Length == 16 && m[..] == s
      modifies m
      ensures m[..] == ScalePlanar(s, x, y, z)
    {
      var p0, p1, p4, p5, p10 := m[0] * x, m[1] * x, m[4] * y, m[5] * y, m[10] * z;
      ScalePlanarParts(s, x, y, z, p0, p1, p4, p5, p10);
      m[0], m[1], m[4], m[5], m[10] := p0, p1, p4, p5, p10;
    }

    /** The general branch of `scale`: the first three columns, each times its factor. */
    method StoreScaleColumns(ghost s: Entries, x: real, y: real, z: real)
      requires m.Length == 16 && m[..] == s
      modifies m
      ensures m[..] == ScaleColumns(s, x, y, z)
    {
      var p0, p1, p2, p3 := m[0] * x, m[1] * x, m[2] * x, m[3] * x;
      var p4, p5, p6, p7 := m[4] * y, m[5] * y, m[6] * y, m[7] * y;
      var p8, p9, p10, p11 := m[8] * z, m[9] * z, m[10] * z, m[11] * z;
      ScaleColumnsParts(s, x, y, z, p0, p1, p2, p3, p4, p5, p6, p7, p8, p9, p10, p11);
      m[0], m[1], m[2], m[3] := p0, p1, p2, p3;
      m[4], m[5], m[6], m[7] := p4, p5, p6, p7;
      m[8], m[9], m[10], m[11] := p8, p9, p10, p11;
    }

    /** `scale(factor)`: the same branches with one factor for all three axes. */
    method ScaleUniform(factor: real)
      requires Valid()
      modifies this, m
      ensures Valid()
      ensures Value() == Scaled(old(Value()), factor, factor, factor)
    {
      Scale(factor, factor, factor);
    }

    /** `scale(QgsVector3D)`. */
    method ScaleBy(v: Vec3)
      requires Valid()
      modifies this, m
      ensures Valid()
      ensures Value() == Scaled(old(Value()), v.x, v.y, v.z)
    {
      Scale(v.x, v.y, v.z);
    }

    /** `scale(x, y)`: the same branches leaving the z axis alone, which is `scale(x, y, 1)`. */
    method Scale2(x: real, y: real)
      requires Valid()
      modifies this, m
      ensures Valid()
      ensures Value() == Scaled2(old(Value()), x, y)
    {
      Scaled2IsScaled(Value(), x, y);
      Scale(x, y, 1.0);
    }

    /**
     * `translate(x, y, z)` and `translate(QgsVector3D)`: multiplies by the translation matrix on the
     * right, using the flags to skip the products with known zeros, then ORs in Translation.
     */
    method Translate(x: real, y: real, z: real)
      requires Valid()
      modifies this, m
      ensures Valid()
      ensures Value() == Translated(old(Value()), x, y, z)
    {
      ghost var a := Value();
      ghost var r := Translated(a, x, y, z);
      if flagBits == Identity {
        TranslatedIdentityParts(a, x, y, z);
        m[12], m[13], m[14] := x, y, z;
      } else if flagBits == Translation {
        TranslatedTranslationParts(a, x, y, z);
        m[12], m[13], m[14] := m[12] + x, m[13] + y, m[14] + z;
      } else if flagBits == Matrices.Scale {
        TranslatedTakesScaledShift(a, x, y, z);
        StoreScaledShift(a.m, x, y, z);
      } else if flagBits == Translation | Matrices.Scale {
        TranslatedTakesScaledAddedShift(a, x, y, z);
        StoreScaledAddedShift(a.m, x, y, z);
      } else if flagBits < Rotation {
        TranslatedTakesPlanarShift(a, x, y, z);
        StorePlanarShift(a.m, x, y, z);
      } else {
        TranslatedTakesGeneralShift(a, x, y, z);
        StoreGeneralShift(a.m, x, y, z);
      }
      assert m[..] == r.m;
      flagBits := flagBits | Translation;
      assert Value() == r;
      TranslatedDescribes(a, x, y, z);
    }

    /** The pure-scale branch of `translate`: the offset is the scaled vector. */
    method StoreScaledShift(ghost s: Entries, x: real, y: real, z: real)
      requires m.Length == 16 && m[..] == s
      modifies m
      ensures m[..] == ScaledShift(s, x, y, z)
    {
      var q12, q13, q14 := m[0] * x, m[5] * y, m[10] * z;
      ScaledShiftParts(s, x, y, z, q12, q13, q14);
      m[12], m[13], m[14] := q12, q13, q14;
    }

    /** The scale-and-translation branch of `translate`: the scaled vector is added. */
    method StoreScaledAddedShift(ghost s: Entries, x: real, y: real, z: real)
      requires m.Length == 16 && m[..] == s
      modifies m
      ensures m[..] == ScaledAddedShift(s, x, y, z)
    {
      var q12, q13, q14 := m[12] + m[0] * x, m[13] + m[5] * y, m[14] + m[10] * z;
      ScaledAddedShiftParts(s, x, y, z, q12, q13, q14);
      m[12], m[13], m[14] := q12, q13, q14;
    }

    /** The planar-rotation branch of `translate`. */
    method StorePlanarShift(ghost s: Entries, x: real, y: real, z: real)
      requires m.Length == 16 && m[..] == s
      modifies m
      ensures m[..] == PlanarShift(s, x, y, z)
    {
      var q12 := m[12] + (m[0] * x + m[4] * y);
      var q13 := m[13] + (m[1] * x + m[5] * y);
      var q14 := m[14] + m[10] * z;
      PlanarShiftParts(s, x, y, z, q12, q13, q14);
      m[12], m[13], m[14] := q12, q13, q14;
    }

    /** The general branch of `translate`: the full 3x4 product with the offset vector. */
    method StoreGeneralShift(ghost s: Entries, x: real, y: real, z: real)
      requires m.Length == 16 && m[..] == s
      modifies m
      ensures m[..] == GeneralShift(s, x, y, z)
    {
      var q12 := m[12] + (m[0] * x + m[4] * y + m[8] * z);
      var q13 := m[13] + (m[1] * x + m[5] * y + m[9] * z);
      var q14 := m[14] + (m[2] * x + m[6] * y + m[10] * z);
      var q15 := m[15] + (m[3] * x + m[7] * y + m[11] * z);
      GeneralShiftParts(s, x, y, z, q12, q13, q14, q15);
      m[12], m[13], m[14], m[15] := q12, q13, q14, q15;
    }

    /** `translate(QgsVector3D)`. */
    method TranslateBy(v: Vec3)
      requires Valid()
      modifies this, m
      ensures Valid()
      ensures Value() == Translated(old(Value()), v.x, v.y, v.z)
    {
      Translate(v.x, v.y, v.z);
    }

    /** `translate(x, y)`: the same branches without a z offset, which is `translate(x, y, 0)`. */
    method Translate2(x: real, y: real)
      requires Valid()
      modifies this, m
      ensures Valid()
      ensures Value() == Translated2(old(Value()), x, y)
    {
      Translated2IsTranslated(Value(), x, y);
      Translate(x, y, 0.0);
    }

    /**
     * `ortho(left, right, bottom, top, nearPlane, farPlane)`: a zero-sized volume is a no-op;
     * otherwise the projection is built in a temporary tagged Translation | Scale and multiplied on.
     */
    method Ortho(left: real, right: real, bottom: real, top: real, nearPlane: real, farPlane: real)
      requires Valid()
      modifies this, m
      ensures Valid()
      ensures Value() == Matrices.Ortho(old(Value()), left, right, bottom, top, nearPlane, farPlane)
    {
      if left == right || bottom == top || nearPlane == farPlane {
        return;
      }
      var p := OrthoProjection(left, right, bottom, top, nearPlane, farPlane);
      MulAssign(p);
    }

    /** The temporary `ortho` builds: the projection entries, tagged Translation | Scale. */
    static method OrthoProjection(left: real, right: real, bottom: real, top: real, nearPlane: real, farPlane: real)
      returns (p: Matrix4x4)
      requires !OrthoDegenerate(left, right, bottom, top, nearPlane, farPlane)
      ensures fresh(p) && fresh(p.m) && p.Valid()
      ensures p.Value() == OrthoMatrix(left, right, bottom, top, nearPlane, farPlane)
    {
      var width, invheight, clip := right - left, top - bottom, farPlane - nearPlane;
      var sx, sy, sz := 2.0 / width, 2.0 / invheight, -2.0 / clip;
      var tx, ty, tz := -(left + right) / width, -(top + bottom) / invheight, -(nearPlane + farPlane) / clip;
      OrthoParts(left, right, bottom, top, nearPlane, farPlane, sx, sy, sz, tx, ty, tz);
      p := new Matrix4x4.FromElements(sx, 0.0, 0.0, tx,
                                      0.0, sy, 0.0, ty,
                                      0.0, 0.0, sz, tz,
                                      0.0, 0.0, 0.0, 1.0);
      p.flagBits := Translation | Matrices.Scale;
      assert p.m[..] == [sx, 0.0, 0.0, 0.0, 0.0, sy, 0.0, 0.0, 0.0, 0.0, sz, 0.0, tx, ty, tz, 1.0];
    }

    /**
     * `optimize()`: clears the flag bits the entries show to be unneeded, starting from General.
     * `fuzzyOrthonormal` is the outcome of the floating-point orthonormality test.
     */
    method Optimize(fuzzyOrthonormal: bool)
      requires m.Length == 16
      modifies this
      ensures Valid()
      ensures Value() == Matrices.Optimize(old(Value()), fuzzyOrthonormal)
    {
      ghost var target := Matrices.Optimize(Value(), fuzzyOrthonormal);
      flagBits := General;
      if m[3] != 0.0 || m[7] != 0.0 || m[11] != 0.0 || m[15] != 1.0 {
        assert Value() == target;
        return;
      }
      flagBits := flagBits & !Perspective;
      if m[12] == 0.0 && m[13] == 0.0 && m[14] == 0.0 {
        flagBits := flagBits & !Translation;
      }
      if m[2] == 0.0 && m[6] == 0.0 && m[8] == 0.0 && m[9] == 0.0 {
        flagBits := flagBits & !Rotation;
        if m[1] == 0.0 && m[4] == 0.0 {
          flagBits := flagBits & !Rotation2D;
          if m[0] == 1.0 && m[5] == 1.0 && m[10] == 1.0 {
            flagBits := flagBits & !Matrices.Scale;
          }
        } else if fuzzyOrthonormal {
          flagBits := flagBits & !Matrices.Scale;
        }
      } else if fuzzyOrthonormal {
        flagBits := flagBits & !Matrices.Scale;
      }
      assert flagBits == target.flags;
      assert Value() == target;
    }

    /**
     * `operator>>(QDataStream &, QgsMatrix4x4 &)`: 16 values row by row through `operator()`, a
     * value past the end of the stream reading as 0, then `optimize()`.
     */
    method ReadFrom(stream: seq<real>, fuzzyOrthonormal: bool)
      requires m.Length == 16
      modifies this, m
      ensures Valid()
      ensures Value() == StreamRead(stream, fuzzyOrthonormal)
    {
      ReadEntries(stream);
      Optimize(fuzzyOrthonormal);
    }

    /** The loops of `operator>>`: each value goes through `operator()`, which sets General. */
    method ReadEntries(stream: seq<real>)
      requires m.Length == 16
      modifies this, m
      ensures Value() == FromRowMajor(StreamValues(stream))
    {
      ghost var values := StreamValues(stream);
      flagBits := General;
      var pos := 0;
      for row := 0 to 4
        invariant pos == 4 * row
        invariant flagBits == General
        invariant forall c, r | 0 <= c < 4 && 0 <= r < row :: Entry(m[..], c, r) == values[4 * r + c]
      {
        for col := 0 to 4
          invariant pos == 4 * row + col
          invariant flagBits == General
          invariant forall c, r | 0 <= c < 4 && 0 <= r < 4 && (r < row || (r == row && c < col)) ::
            Entry(m[..], c, r) == values[4 * r + c]
        {
          var x := if pos < |stream| then stream[pos] else 0.0;
          pos := pos + 1;
          assert x == values[4 * row + col];
          ghost var before := m[..];
          m[4 * col + row] := x;
          assert m[..] == before[4 * col + row := x];
          WriteCell(before, m[..], col, row, x);
          flagBits := General;
        }
      }
      ghost var target := FromRowMajor(values);
      forall c, r | 0 <= c < 4 && 0 <= r < 4 ensures Entry(m[..], c, r) == Entry(target.m, c, r) {
        assert At(target, r, c) == values[4 * r + c];
      }
      SameEntries(m[..], target.m);
    }

    /** `operator<<(QDataStream &, const QgsMatrix4x4 &)`: the 16 entries, row by row. */
    method WriteTo() returns (stream: seq<real>)
      requires m.Length == 16
      ensures stream == RowMajor(Value())
    {
      stream := [];
      for row := 0 to 4
        invariant |stream| == 4 * row
        invariant forall k | 0 <= k < |stream| :: stream[k] == RowMajor(Value())[k]
      {
        for col := 0 to 4
          invariant |stream| == 4 * row + col
          invariant forall k | 0 <= k < |stream| :: stream[k] == RowMajor(Value())[k]
        {
          assert At(Value(), row, col) == m[4 * col + row];
          stream := stream + [m[4 * col + row]];
        }
      }
    }
  }

  // The branch `scale` and `translate` take, and each branch with its products named: the
  // methods store exactly these values.

  lemma ScaledUnscaledParts(a: Mat, x: real, y: real, z: real)
    requires a.flags < Scale
    ensures Scaled(a, x, y, z).m == a.m[0 := x][5 := y][10 := z]
  {
  }

  lemma TranslatedIdentityParts(a: Mat, x: real, y: real, z: real)
    requires a.flags == Identity
    ensures Translated(a, x, y, z).m == a.m[12 := x][13 := y][14 := z]
  {
  }

  lemma TranslatedTranslationParts(a: Mat, x: real, y: real, z: real)
    requires a.flags == Translation
    ensures Translated(a, x, y, z).m == a.m[12 := a.m[12] + x][13 := a.m[13] + y][14 := a.m[14] + z]
  {
  }

  lemma ScaledTakesScaleDiagonal(a: Mat, x: real, y: real, z: real)
    requires Scale <= a.flags < Rotation2D
    ensures Scaled(a, x, y, z).m == ScaleDiagonal(a.m, x, y, z)
  {
  }

  lemma ScaledTakesScalePlanar(a: Mat, x: real, y: real, z: real)
    requires Rotation2D <= a.flags < Rotation
    ensures Scaled(a, x, y, z).m == ScalePlanar(a.m, x, y, z)
  {
  }

  lemma ScaledTakesScaleColumns(a: Mat, x: real, y: real, z: real)
    requires Rotation <= a.flags
    ensures Scaled(a, x, y, z).m == ScaleColumns(a.m, x, y, z)
  {
  }

  lemma TranslatedTakesScaledShift(a: Mat, x: real, y: real, z: real)
    requires a.flags == Scale
    ensures Translated(a, x, y, z).m == ScaledShift(a.m, x, y, z)
  {
  }

  lemma TranslatedTakesScaledAddedShift(a: Mat, x: real, y: real, z: real)
    requires a.flags == Translation | Scale
    ensures Translated(a, x, y, z).m == ScaledAddedShift(a.m, x, y, z)
  {
  }

  lemma TranslatedTakesPlanarShift(a: Mat, x: real, y: real, z: real)
    requires a.flags < Rotation && a.flags != Identity && a.flags != Translation && a.flags != Scale
      && a.flags != Translation | Scale
    ensures Translated(a, x, y, z).m == PlanarShift(a.m, x, y, z)
  {
  }

  lemma TranslatedTakesGeneralShift(a: Mat, x: real, y: real, z: real)
    requires Rotation <= a.flags
    ensures Translated(a, x, y, z).m == GeneralShift(a.m, x, y, z)
  {
  }

  lemma ScaleDiagonalParts(s: Entries, x: real, y: real, z: real, p0: real, p5: real, p10: real)
    requires p0 == s[0] * x && p5 == s[5] * y && p10 == s[10] * z
    ensures ScaleDiagonal(s, x, y, z) == s[0 := p0][5 := p5][10 := p10]
  {
  }

  lemma ScalePlanarParts(s: Entries, x: real, y: real, z: real, p0: real, p1: real, p4: real, p5: real, p10: real)
    requires p0 == s[0] * x && p1 == s[1] * x && p4 == s[4] * y && p5 == s[5] * y
    requires p10 == s[10] * z
    ensures ScalePlanar(s, x, y, z) == s[0 := p0][1 := p1][4 := p4][5 := p5][10 := p10]
  {
  }

  lemma ScaleColumnsParts(s: Entries, x: real, y: real, z: real, p0: real, p1: real, p2: real, p3: real, p4: real, p5: real, p6: real, p7: real, p8: real, p9: real, p10: real, p11: real)
    requires p0 == s[0] * x && p1 == s[1] * x && p2 == s[2] * x && p3 == s[3] * x
    requires p4 == s[4] * y && p5 == s[5] * y && p6 == s[6] * y && p7 == s[7] * y
    requires p8 == s[8] * z && p9 == s[9] * z && p10 == s[10] * z && p11 == s[11] * z
    ensures ScaleColumns(s, x, y, z) == s[0 := p0][1 := p1][2 := p2][3 := p3][4 := p4][5 := p5][6 := p6][7 := p7][8 := p8][9 := p9][10 := p10][11 := p11]
  {
  }

  lemma ScaledShiftParts(s: Entries, x: real, y: real, z: real, q12: real, q13: real, q14: real)
    requires q12 == s[0] * x && q13 == s[5] * y && q14 == s[10] * z
    ensures ScaledShift(s, x, y, z) == s[12 := q12][13 := q13][14 := q14]
  {
  }

  lemma ScaledAddedShiftParts(s: Entries, x: real, y: real, z: real, q12: real, q13: real, q14: real)
    requires q12 == s[12] + s[0] * x && q13 == s[13] + s[5] * y && q14 == s[14] + s[10] * z
    ensures ScaledAddedShift(s, x, y, z) == s[12 := q12][13 := q13][14 := q14]
  {
  }

  lemma PlanarShiftParts(s: Entries, x: real, y: real, z: real, q12: real, q13: real, q14: real)
    requires q12 == s[12] + (s[0] * x + s[4] * y) && q13 == s[13] + (s[1] * x + s[5] * y) && q14 == s[14] + s[10] * z
    ensures PlanarShift(s, x, y, z) == s[12 := q12][13 := q13][14 := q14]
  {
  }

  lemma GeneralShiftParts(s: Entries, x: real, y: real, z: real, q12: real, q13: real, q14: real, q15: real)
    requires q12 == s[12] + (s[0] * x + s[4] * y + s[8] * z) && q13 == s[13] + (s[1] * x + s[5] * y + s[9] * z) && q14 == s[14] + (s[2] * x + s[6] * y + s[10] * z) && q15 == s[15] + (s[3] * x + s[7] * y + s[11] * z)
    ensures GeneralShift(s, x, y, z) == s[12 := q12][13 := q13][14 := q14][15 := q15]
  {
  }

  /** The four products a row of `*=` computes are the entries `Dot4` defines. */
  lemma RowTimesColumn(row: int, a: Mat, b: Mat, x0: real, x1: real, x2: real, x3: real)
    requires 0 <= row < 4
    requires x0 == a.m[row] && x1 == a.m[4 + row] && x2 == a.m[8 + row] && x3 == a.m[12 + row]
    ensures Dot4(a, b, row, 0) == x0 * b.m[0] + x1 * b.m[1] + x2 * b.m[2] + x3 * b.m[3]
    ensures Dot4(a, b, row, 1) == x0 * b.m[4] + x1 * b.m[5] + x2 * b.m[6] + x3 * b.m[7]
    ensures Dot4(a, b, row, 2) == x0 * b.m[8] + x1 * b.m[9] + x2 * b.m[10] + x3 * b.m[11]
    ensures Dot4(a, b, row, 3) == x0 * b.m[12] + x1 * b.m[13] + x2 * b.m[14] + x3 * b.m[15]
  {
  }

  /** The entries of the `ortho` projection, with its scale factors and offsets named. */
  lemma OrthoParts(left: real, right: real, bottom: real, top: real, nearPlane: real, farPlane: real,
                   sx: real, sy: real, sz: real, tx: real, ty: real, tz: real)
    requires !OrthoDegenerate(left, right, bottom, top, nearPlane, farPlane)
    requires sx == 2.0 / (right - left) && sy == 2.0 / (top - bottom) && sz == -2.0 / (farPlane - nearPlane)
    requires tx == -(left + right) / (right - left) && ty == -(top + bottom) / (top - bottom)
    requires tz == -(nearPlane + farPlane) / (farPlane - nearPlane)
    ensures OrthoMatrix(left, right, bottom, top, nearPlane, farPlane)
         == Mat([sx, 0.0, 0.0, 0.0, 0.0, sy, 0.0, 0.0, 0.0, 0.0, sz, 0.0, tx, ty, tz, 1.0], Translation | Scale)
  {
  }

}
