/**
 * Values of `QgsMatrix4x4`: sixteen doubles stored column by column (`m[col][row]`, the OpenGL
 * layout) together with the `flagBits` tag that tells the fast paths what kind of transform the
 * matrix is. Every function here is the value-level meaning of one operation of the class; the
 * in-place operations of the class are proved against these functions in `MatrixObject`.
 *
 * Entry `m[col][row]` of the source is element `4 * col + row` of `m` below; `M(a, col, row)` reads
 * it with the source's index order and `At(a, row, col)` is the public `operator()(row, col)`.
 */
module Matrices {
  import opened Vectors

  /** The `flagBits` field: an OR of the bits below (their values are the enum's). */
  type Flags = bv8

  const Identity: Flags := 0x00
  const Translation: Flags := 0x01
  const Scale: Flags := 0x02
  const Rotation2D: Flags := 0x04
  const Rotation: Flags := 0x08
  const Perspective: Flags := 0x10
  const General: Flags := 0x1f

  type Entries = s: seq<real> | |s| == 16
    witness [1.0, 0.0, 0.0, 0.0, 0.0, 1.0, 0.0, 0.0, 0.0, 0.0, 1.0, 0.0, 0.0, 0.0, 0.0, 1.0]

  const IdentityEntries: Entries :=
    [1.0, 0.0, 0.0, 0.0, 0.0, 1.0, 0.0, 0.0, 0.0, 0.0, 1.0, 0.0, 0.0, 0.0, 0.0, 1.0]

  datatype Mat = Mat(m: Entries, flags: Flags)

  /** Cell `(col, row)` of sixteen values stored column by column. */
  function Entry(s: seq<real>, col: int, row: int): real
    requires |s| == 16 && 0 <= col < 4 && 0 <= row < 4
  {
    s[4 * col + row]
  }

  /** The storage cell `m[col][row]`. */
  function M(a: Mat, col: int, row: int): real
    requires 0 <= col < 4 && 0 <= row < 4
  {
    Entry(a.m, col, row)
  }

  /** Writing one cell leaves every other cell as it was. */
  lemma WriteCell(s: seq<real>, t: seq<real>, col: int, row: int, v: real)
    requires |s| == 16 && 0 <= col < 4 && 0 <= row < 4 && t == s[4 * col + row := v]
    ensures Entry(t, col, row) == v
    ensures forall c, r | 0 <= c < 4 && 0 <= r < 4 && (c != col || r != row) :: Entry(t, c, r) == Entry(s, c, r)
  {
    forall c, r | 0 <= c < 4 && 0 <= r < 4 && (c != col || r != row) ensures Entry(t, c, r) == Entry(s, c, r) {
      if c < col {
        assert 4 * c + r < 4 * col + row;
      } else if c > col {
        assert 4 * c + r > 4 * col + row;
      }
    }
  }

  /** Sixteen values are determined by their cells. */
  lemma SameEntries(x: seq<real>, y: seq<real>)
    requires |x| == 16 && |y| == 16
    requires forall col, row | 0 <= col < 4 && 0 <= row < 4 :: Entry(x, col, row) == Entry(y, col, row)
    ensures x == y
  {
    assert Entry(x, 0, 0) == Entry(y, 0, 0) && Entry(x, 0, 1) == Entry(y, 0, 1);
    assert Entry(x, 0, 2) == Entry(y, 0, 2) && Entry(x, 0, 3) == Entry(y, 0, 3);
    assert Entry(x, 1, 0) == Entry(y, 1, 0) && Entry(x, 1, 1) == Entry(y, 1, 1);
    assert Entry(x, 1, 2) == Entry(y, 1, 2) && Entry(x, 1, 3) == Entry(y, 1, 3);
    assert Entry(x, 2, 0) == Entry(y, 2, 0) && Entry(x, 2, 1) == Entry(y, 2, 1);
    assert Entry(x, 2, 2) == Entry(y, 2, 2) && Entry(x, 2, 3) == Entry(y, 2, 3);
    assert Entry(x, 3, 0) == Entry(y, 3, 0) && Entry(x, 3, 1) == Entry(y, 3, 1);
    assert Entry(x, 3, 2) == Entry(y, 3, 2) && Entry(x, 3, 3) == Entry(y, 3, 3);
    forall i | 0 <= i < 16 ensures x[i] == y[i] {
    }
  }

  /** The const `operator()(row, col)`. */
  function At(a: Mat, row: int, col: int): real
    requires 0 <= row < 4 && 0 <= col < 4
  {
    M(a, col, row)
  }

  /**
   * The flag bits tell the truth about the contents: without Perspective the last row is
   * (0, 0, 0, 1); without Translation the translation column is zero; without Rotation nothing
   * couples z with x or y; without either rotation bit the upper 3x3 block is diagonal; and
   * without Scale as well that diagonal is all ones. A matrix with the Perspective bit may hold
   * anything: every operation takes its general path on it.
   */
  predicate Describes(a: Mat) {
    a.flags & Perspective != 0 ||
    (M(a, 0, 3) == 0.0 && M(a, 1, 3) == 0.0 && M(a, 2, 3) == 0.0 && M(a, 3, 3) == 1.0
     && (a.flags & Translation == 0 ==> M(a, 3, 0) == 0.0 && M(a, 3, 1) == 0.0 && M(a, 3, 2) == 0.0)
     && (a.flags & Rotation == 0 ==>
           M(a, 0, 2) == 0.0 && M(a, 1, 2) == 0.0 && M(a, 2, 0) == 0.0 && M(a, 2, 1) == 0.0)
     && (a.flags & (Rotation | Rotation2D) == 0 ==> M(a, 0, 1) == 0.0 && M(a, 1, 0) == 0.0)
     && (a.flags & (Rotation | Rotation2D | Scale) == 0 ==>
           M(a, 0, 0) == 1.0 && M(a, 1, 1) == 1.0 && M(a, 2, 2) == 1.0))
  }

  // ---------------------------------------------------------------------------------------------
  // Construction and element access

  /** The default constructor (`setToIdentity()`). */
  function IdentityMatrix(): Mat { Mat(IdentityEntries, Identity) }

  /** Sixteen values read as a 4x4 grid one way and laid out the other way (rows and columns swap). */
  function Swap16(s: seq<real>): (r: seq<real>)
    requires |s| == 16
    ensures |r| == 16
  {
    [s[0], s[4], s[8], s[12], s[1], s[5], s[9], s[13], s[2], s[6], s[10], s[14], s[3], s[7], s[11], s[15]]
  }

  /** The 16-argument constructor; its arguments are given row by row. */
  function FromArgs(m11: real, m12: real, m13: real, m14: real,
                    m21: real, m22: real, m23: real, m24: real,
                    m31: real, m32: real, m33: real, m34: real,
                    m41: real, m42: real, m43: real, m44: real): (r: Mat)
    ensures At(r, 0, 0) == m11 && At(r, 0, 1) == m12 && At(r, 0, 2) == m13 && At(r, 0, 3) == m14
    ensures At(r, 1, 0) == m21 && At(r, 1, 1) == m22 && At(r, 1, 2) == m23 && At(r, 1, 3) == m24
    ensures At(r, 2, 0) == m31 && At(r, 2, 1) == m32 && At(r, 2, 2) == m33 && At(r, 2, 3) == m34
    ensures At(r, 3, 0) == m41 && At(r, 3, 1) == m42 && At(r, 3, 2) == m43 && At(r, 3, 3) == m44
    ensures r.flags == General
  {
    Mat([m11, m21, m31, m41, m12, m22, m32, m42, m13, m23, m33, m43, m14, m24, m34, m44], General)
  }

  /** The `const double *values` constructor: 16 values in row-major order. */
  function FromRowMajor(values: seq<real>): (r: Mat)
    requires |values| == 16
    ensures forall row, col | 0 <= row < 4 && 0 <= col < 4 :: At(r, row, col) == values[4 * row + col]
    ensures r.flags == General
  {
    Mat(Swap16(values), General)
  }

  /**
   * The `(values, cols, rows)` constructor behind the `QGenericMatrix` conversion: the top-left
   * block is copied from `values` (stored column by column with `rows` rows), the rest comes from
   * the identity.
   */
  function FromBlock(values: seq<real>, cols: int, rows: int): (r: Mat)
    requires 0 <= cols && 0 <= rows && cols * rows <= |values|
    ensures forall row, col | 0 <= row < 4 && 0 <= col < 4 :: At(r, row, col) == BlockCell(values, cols, rows, col, row)
    ensures r.flags == General
  {
    Mat([BlockCell(values, cols, rows, 0, 0), BlockCell(values, cols, rows, 0, 1), BlockCell(values, cols, rows, 0, 2), BlockCell(values, cols, rows, 0, 3),
         BlockCell(values, cols, rows, 1, 0), BlockCell(values, cols, rows, 1, 1), BlockCell(values, cols, rows, 1, 2), BlockCell(values, cols, rows, 1, 3),
         BlockCell(values, cols, rows, 2, 0), BlockCell(values, cols, rows, 2, 1), BlockCell(values, cols, rows, 2, 2), BlockCell(values, cols, rows, 2, 3),
         BlockCell(values, cols, rows, 3, 0), BlockCell(values, cols, rows, 3, 1), BlockCell(values, cols, rows, 3, 2), BlockCell(values, cols, rows, 3, 3)],
        General)
  }

  /** Cell `(col, row)` of the `(values, cols, rows)` constructor. */
  function BlockCell(values: seq<real>, cols: int, rows: int, col: int, row: int): real
    requires 0 <= cols && 0 <= rows && cols * rows <= |values| && 0 <= col < 4 && 0 <= row < 4
  {
    if col < cols && row < rows then
      BlockIndexInRange(col, row, cols, rows);
      values[col * rows + row]
    else if col == row then 1.0
    else 0.0
  }

  lemma BlockIndexInRange(col: int, row: int, cols: int, rows: int)
    requires 0 <= col < cols && 0 <= row < rows
    ensures 0 <= col * rows + row < cols * rows
  {
    assert col * rows <= (cols - 1) * rows;
  }

  /** `copyDataTo` and the stream writer: the 16 entries in row-major order. */
  function RowMajor(a: Mat): (values: seq<real>)
    ensures |values| == 16
    ensures forall row, col | 0 <= row < 4 && 0 <= col < 4 :: values[4 * row + col] == At(a, row, col)
  {
    Swap16(a.m)
  }

  /** `fill(value)`. */
  function Filled(value: real): (r: Mat)
    ensures forall i | 0 <= i < 16 :: r.m[i] == value
    ensures r.flags == General
  {
    Mat(seq(16, _ => value), General)
  }

  /** Assignment through the non-const `operator()(row, col)`: the flags fall back to General. */
  function WithEntry(a: Mat, row: int, col: int, value: real): (r: Mat)
    requires 0 <= row < 4 && 0 <= col < 4
    ensures At(r, row, col) == value
    ensures forall i, j | 0 <= i < 4 && 0 <= j < 4 && (i, j) != (row, col) :: At(r, i, j) == At(a, i, j)
    ensures r.flags == General
  {
    Mat(a.m[4 * col + row := value], General)
  }

  function Column(a: Mat, index: int): Vec4
    requires 0 <= index < 4
  {
    Vec4(M(a, index, 0), M(a, index, 1), M(a, index, 2), M(a, index, 3))
  }

  function Row(a: Mat, index: int): Vec4
    requires 0 <= index < 4
  {
    Vec4(M(a, 0, index), M(a, 1, index), M(a, 2, index), M(a, 3, index))
  }

  function WithColumn(a: Mat, index: int, v: Vec4): (r: Mat)
    requires 0 <= index < 4
    ensures Column(r, index) == v
    ensures forall j | 0 <= j < 4 && j != index :: Column(r, j) == Column(a, j)
    ensures r.flags == General
  {
    Mat(a.m[4 * index := v.x][4 * index + 1 := v.y][4 * index + 2 := v.z][4 * index + 3 := v.w], General)
  }

  function WithRow(a: Mat, index: int, v: Vec4): (r: Mat)
    requires 0 <= index < 4
    ensures Row(r, index) == v
    ensures forall j | 0 <= j < 4 && j != index :: Row(r, j) == Row(a, j)
    ensures r.flags == General
  {
    Mat(a.m[index := v.x][4 + index := v.y][8 + index := v.z][12 + index := v.w], General)
  }

  predicate IsAffine(a: Mat) {
    M(a, 0, 3) == 0.0 && M(a, 1, 3) == 0.0 && M(a, 2, 3) == 0.0 && M(a, 3, 3) == 1.0
  }

  /** `isIdentity()`: trusts the Identity flag, otherwise compares all 16 entries. */
  predicate IsIdentity(a: Mat) {
    a.flags == Identity || a.m == IdentityEntries
  }

  // ---------------------------------------------------------------------------------------------
  // Entrywise arithmetic; every result is tagged General

  function Sum(a: Mat, b: Mat): Mat {
    Mat(seq(16, i requires 0 <= i < 16 => a.m[i] + b.m[i]), General)
  }

  function Difference(a: Mat, b: Mat): Mat {
    Mat(seq(16, i requires 0 <= i < 16 => a.m[i] - b.m[i]), General)
  }

  /** Unary minus. */
  function Negated(a: Mat): Mat {
    Mat(seq(16, i requires 0 <= i < 16 => -a.m[i]), General)
  }

  /** `factor * matrix`, `matrix * factor` and `*= factor`. */
  function TimesScalar(a: Mat, factor: real): Mat {
    Mat(seq(16, i requires 0 <= i < 16 => a.m[i] * factor), General)
  }

  /** `matrix / divisor` and `/= divisor`. */
  function DivScalar(a: Mat, divisor: real): Mat
    requires divisor != 0.0
  {
    Mat(seq(16, i requires 0 <= i < 16 => a.m[i] / divisor), General)
  }

  /** `operator==` compares the 16 entries and ignores the flags. */
  predicate Equal(a: Mat, b: Mat) { a.m == b.m }

  /** `operator!=`: some entry differs. */
  predicate NotEqual(a: Mat, b: Mat) { exists i :: 0 <= i < 16 && a.m[i] != b.m[i] }

  // ---------------------------------------------------------------------------------------------
  // Products

  /** Row `row` of `a` times column `col` of `b`. */
  function Dot4(a: Mat, b: Mat, row: int, col: int): real
    requires 0 <= row < 4 && 0 <= col < 4
  {
    At(a, row, 0) * At(b, 0, col) + At(a, row, 1) * At(b, 1, col)
    + At(a, row, 2) * At(b, 2, col) + At(a, row, 3) * At(b, 3, col)
  }

  /** The general product of `operator*`, tagged with the OR of both operands' flags. */
  function Product(a: Mat, b: Mat): Mat {
    Mat([Dot4(a, b, 0, 0), Dot4(a, b, 1, 0), Dot4(a, b, 2, 0), Dot4(a, b, 3, 0),
         Dot4(a, b, 0, 1), Dot4(a, b, 1, 1), Dot4(a, b, 2, 1), Dot4(a, b, 3, 1),
         Dot4(a, b, 0, 2), Dot4(a, b, 1, 2), Dot4(a, b, 2, 2), Dot4(a, b, 3, 2),
         Dot4(a, b, 0, 3), Dot4(a, b, 1, 3), Dot4(a, b, 2, 3), Dot4(a, b, 3, 3)],
        a.flags | b.flags)
  }

  /** Sixteen values whose every cell is the matching row-by-column sum are the product. */
  lemma ProductOfCells(s: seq<real>, a: Mat, b: Mat)
    requires |s| == 16
    requires forall col, row | 0 <= col < 4 && 0 <= row < 4 :: Entry(s, col, row) == Dot4(a, b, row, col)
    ensures s == Product(a, b).m
  {
    assert Entry(s, 0, 0) == Dot4(a, b, 0, 0) && Entry(s, 0, 1) == Dot4(a, b, 1, 0);
    assert Entry(s, 0, 2) == Dot4(a, b, 2, 0) && Entry(s, 0, 3) == Dot4(a, b, 3, 0);
    assert Entry(s, 1, 0) == Dot4(a, b, 0, 1) && Entry(s, 1, 1) == Dot4(a, b, 1, 1);
    assert Entry(s, 1, 2) == Dot4(a, b, 2, 1) && Entry(s, 1, 3) == Dot4(a, b, 3, 1);
    assert Entry(s, 2, 0) == Dot4(a, b, 0, 2) && Entry(s, 2, 1) == Dot4(a, b, 1, 2);
    assert Entry(s, 2, 2) == Dot4(a, b, 2, 2) && Entry(s, 2, 3) == Dot4(a, b, 3, 2);
    assert Entry(s, 3, 0) == Dot4(a, b, 0, 3) && Entry(s, 3, 1) == Dot4(a, b, 1, 3);
    assert Entry(s, 3, 2) == Dot4(a, b, 2, 3) && Entry(s, 3, 3) == Dot4(a, b, 3, 3);
  }

  /**
   * The Translation/Scale shortcut of `operator*` and `*=`: the translation column picks up the
   * old diagonal times the other translation, then the diagonal is multiplied.
   */
  function FastProduct(a: Mat, b: Mat): Entries {
    [a.m[0] * b.m[0], a.m[1], a.m[2], a.m[3],
     a.m[4], a.m[5] * b.m[5], a.m[6], a.m[7],
     a.m[8], a.m[9], a.m[10] * b.m[10], a.m[11],
     a.m[12] + a.m[0] * b.m[12], a.m[13] + a.m[5] * b.m[13], a.m[14] + a.m[10] * b.m[14], a.m[15]]
  }

  /**
   * Sixteen values that keep the entries of `a` except the six the shortcut stores, computed from
   * the diagonal and translation of `a` as they were, are the shortcut product.
   */
  lemma FastProductStores(a: Mat, b: Mat, s: seq<real>, x0: real, x5: real, x10: real, x12: real, x13: real, x14: real)
    requires |s| == 16
    requires x0 == a.m[0] && x5 == a.m[5] && x10 == a.m[10] && x12 == a.m[12] && x13 == a.m[13] && x14 == a.m[14]
    requires s[0] == x0 * b.m[0] && s[5] == x5 * b.m[5] && s[10] == x10 * b.m[10]
    requires s[12] == x12 + x0 * b.m[12] && s[13] == x13 + x5 * b.m[13] && s[14] == x14 + x10 * b.m[14]
    requires s[1] == a.m[1] && s[2] == a.m[2] && s[3] == a.m[3] && s[4] == a.m[4] && s[6] == a.m[6]
    requires s[7] == a.m[7] && s[8] == a.m[8] && s[9] == a.m[9] && s[11] == a.m[11] && s[15] == a.m[15]
    ensures s == FastProduct(a, b)
  {
    var f := FastProduct(a, b);
    assert s[0] == f[0] && s[5] == f[5] && s[10] == f[10];
    assert s[12] == f[12] && s[13] == f[13] && s[14] == f[14];
    assert s[1] == f[1] && s[2] == f[2] && s[3] == f[3] && s[4] == f[4] && s[6] == f[6];
    assert s[7] == f[7] && s[8] == f[8] && s[9] == f[9] && s[11] == f[11] && s[15] == f[15];
  }

  /** `operator*(m1, m2)`. */
  function Mul(a: Mat, b: Mat): (r: Mat)
    ensures r.flags == a.flags | b.flags
  {
    var flags := a.flags | b.flags;
    if flags < Rotation2D then Mat(FastProduct(a, b), flags) else Product(a, b)
  }

  /** `matrix * QgsVector4D`: the column-major matrix-vector product. */
  function Times4(a: Mat, v: Vec4): Vec4 {
    Vec4(v.x * M(a, 0, 0) + v.y * M(a, 1, 0) + v.z * M(a, 2, 0) + v.w * M(a, 3, 0),
         v.x * M(a, 0, 1) + v.y * M(a, 1, 1) + v.z * M(a, 2, 1) + v.w * M(a, 3, 1),
         v.x * M(a, 0, 2) + v.y * M(a, 1, 2) + v.z * M(a, 2, 2) + v.w * M(a, 3, 2),
         v.x * M(a, 0, 3) + v.y * M(a, 1, 3) + v.z * M(a, 2, 3) + v.w * M(a, 3, 3))
  }

  /** `QgsVector4D * matrix`: the row vector times the matrix. */
  function VecTimes4(v: Vec4, a: Mat): Vec4 {
    Vec4(v.x * M(a, 0, 0) + v.y * M(a, 0, 1) + v.z * M(a, 0, 2) + v.w * M(a, 0, 3),
         v.x * M(a, 1, 0) + v.y * M(a, 1, 1) + v.z * M(a, 1, 2) + v.w * M(a, 1, 3),
         v.x * M(a, 2, 0) + v.y * M(a, 2, 1) + v.z * M(a, 2, 2) + v.w * M(a, 2, 3),
         v.x * M(a, 3, 0) + v.y * M(a, 3, 1) + v.z * M(a, 3, 2) + v.w * M(a, 3, 3))
  }

  /** The homogeneous coordinate of `matrix * QgsVector3D` on its general path. */
  function HomogeneousW(a: Mat, v: Vec3): real {
    v.x * M(a, 0, 3) + v.y * M(a, 1, 3) + v.z * M(a, 2, 3) + M(a, 3, 3)
  }

  /**
   * `matrix * QgsVector3D` (a point, w = 1), with its Identity, Translation/Scale and Rotation2D
   * shortcuts. A zero homogeneous coordinate gives IEEE infinities in the source and is excluded.
   */
  function Times3(a: Mat, v: Vec3): (r: Vec3)
    requires Rotation <= a.flags ==> HomogeneousW(a, v) != 0.0
    ensures a.flags == Identity ==> r == v
  {
    if a.flags == Identity then v
    else if a.flags < Rotation2D then
      Vec3(v.x * M(a, 0, 0) + M(a, 3, 0), v.y * M(a, 1, 1) + M(a, 3, 1), v.z * M(a, 2, 2) + M(a, 3, 2))
    else if a.flags < Rotation then
      Vec3(v.x * M(a, 0, 0) + v.y * M(a, 1, 0) + M(a, 3, 0),
           v.x * M(a, 0, 1) + v.y * M(a, 1, 1) + M(a, 3, 1),
           v.z * M(a, 2, 2) + M(a, 3, 2))
    else
      var x := v.x * M(a, 0, 0) + v.y * M(a, 1, 0) + v.z * M(a, 2, 0) + M(a, 3, 0);
      var y := v.x * M(a, 0, 1) + v.y * M(a, 1, 1) + v.z * M(a, 2, 1) + M(a, 3, 1);
      var z := v.x * M(a, 0, 2) + v.y * M(a, 1, 2) + v.z * M(a, 2, 2) + M(a, 3, 2);
      var w := HomogeneousW(a, v);
      if w == 1.0 then Vec3(x, y, z) else Vec3(x / w, y / w, z / w)
  }

  /** The homogeneous coordinate of `QgsVector3D * matrix`. */
  function RowHomogeneousW(v: Vec3, a: Mat): real {
    v.x * M(a, 3, 0) + v.y * M(a, 3, 1) + v.z * M(a, 3, 2) + M(a, 3, 3)
  }

  /** `QgsVector3D * matrix`, always on the general path. */
  function VecTimes3(v: Vec3, a: Mat): Vec3
    requires RowHomogeneousW(v, a) != 0.0
  {
    var x := v.x * M(a, 0, 0) + v.y * M(a, 0, 1) + v.z * M(a, 0, 2) + M(a, 0, 3);
    var y := v.x * M(a, 1, 0) + v.y * M(a, 1, 1) + v.z * M(a, 1, 2) + M(a, 1, 3);
    var z := v.x * M(a, 2, 0) + v.y * M(a, 2, 1) + v.z * M(a, 2, 2) + M(a, 2, 3);
    var w := RowHomogeneousW(v, a);
    if w == 1.0 then Vec3(x, y, z) else Vec3(x / w, y / w, z / w)
  }

  /** `mapVector`: a direction (w = 0), so translation never applies. */
  function MapVector(a: Mat, v: Vec3): Vec3 {
    if a.flags < Scale then v
    else if a.flags < Rotation2D then Vec3(v.x * M(a, 0, 0), v.y * M(a, 1, 1), v.z * M(a, 2, 2))
    else
      Vec3(v.x * M(a, 0, 0) + v.y * M(a, 1, 0) + v.z * M(a, 2, 0),
           v.x * M(a, 0, 1) + v.y * M(a, 1, 1) + v.z * M(a, 2, 1),
           v.x * M(a, 0, 2) + v.y * M(a, 1, 2) + v.z * M(a, 2, 2))
  }

  // ---------------------------------------------------------------------------------------------
  // Transpose, determinant and inverse

  /** `transposed()`: a transposed translation is a perspective, so the flags become General. */
  function Transposed(a: Mat): (r: Mat)
    ensures forall row, col | 0 <= row < 4 && 0 <= col < 4 :: At(r, row, col) == At(a, col, row)
    ensures r.flags == General <==> a.flags & Translation != 0
    ensures a.flags & Translation == 0 ==> r.flags == a.flags
  {
    Mat(Swap16(a.m),
        if a.flags & Translation != 0 then General else a.flags)
  }

  /** `matrixDet2(m, col0, col1, row0, row1)`. */
  function Det2(a: Mat, col0: int, col1: int, row0: int, row1: int): real
    requires 0 <= col0 < 4 && 0 <= col1 < 4 && 0 <= row0 < 4 && 0 <= row1 < 4
  {
    M(a, col0, row0) * M(a, col1, row1) - M(a, col0, row1) * M(a, col1, row0)
  }

  /** `matrixDet3`: expansion along `row0`. */
  function Det3(a: Mat, col0: int, col1: int, col2: int, row0: int, row1: int, row2: int): real
    requires 0 <= col0 < 4 && 0 <= col1 < 4 && 0 <= col2 < 4
    requires 0 <= row0 < 4 && 0 <= row1 < 4 && 0 <= row2 < 4
  {
    M(a, col0, row0) * Det2(a, col1, col2, row1, row2)
    - M(a, col1, row0) * Det2(a, col0, col2, row1, row2)
    + M(a, col2, row0) * Det2(a, col0, col1, row1, row2)
  }

  /** `matrixDet4`: expansion along row 0. */
  function Det4(a: Mat): real {
    M(a, 0, 0) * Det3(a, 1, 2, 3, 1, 2, 3)
    - M(a, 1, 0) * Det3(a, 0, 2, 3, 1, 2, 3)
    + M(a, 2, 0) * Det3(a, 0, 1, 3, 1, 2, 3)
    - M(a, 3, 0) * Det3(a, 0, 1, 2, 1, 2, 3)
  }

  /** `determinant()`, trusting the flags: pure rotations and translations have determinant 1. */
  function Determinant(a: Mat): real {
    if a.flags & !(Translation | Rotation2D | Rotation) == Identity then 1.0
    else if a.flags < Rotation2D then M(a, 0, 0) * M(a, 1, 1) * M(a, 2, 2)
    else if a.flags < Perspective then Det3(a, 0, 1, 2, 0, 1, 2)
    else Det4(a)
  }

  /** The result of `inverted(bool *invertible)`. */
  datatype Inverse = Inverse(matrix: Mat, invertible: bool)

  /** `orthonormalInverse()`: transpose the rotation, rotate the negated translation back. */
  function OrthonormalInverse(a: Mat): Mat {
    var r00, r10, r20 := M(a, 0, 0), M(a, 0, 1), M(a, 0, 2);
    var r01, r11, r21 := M(a, 1, 0), M(a, 1, 1), M(a, 1, 2);
    var r02, r12, r22 := M(a, 2, 0), M(a, 2, 1), M(a, 2, 2);
    var t0, t1, t2 := M(a, 3, 0), M(a, 3, 1), M(a, 3, 2);
    Mat([r00, r01, r02, 0.0,
         r10, r11, r12, 0.0,
         r20, r21, r22, 0.0,
         -(r00 * t0 + r10 * t1 + r20 * t2),
         -(r01 * t0 + r11 * t1 + r21 * t2),
         -(r02 * t0 + r12 * t1 + r22 * t2),
         1.0],
        a.flags)
  }

  /** The affine branch of `inverted`: the adjugate of the upper 3x3 block over its determinant. */
  function AffineInverse(a: Mat, d: real): Mat {
    var i00, i01, i02 := Det2(a, 1, 2, 1, 2) * d, -Det2(a, 0, 2, 1, 2) * d, Det2(a, 0, 1, 1, 2) * d;
    var i10, i11, i12 := -Det2(a, 1, 2, 0, 2) * d, Det2(a, 0, 2, 0, 2) * d, -Det2(a, 0, 1, 0, 2) * d;
    var i20, i21, i22 := Det2(a, 1, 2, 0, 1) * d, -Det2(a, 0, 2, 0, 1) * d, Det2(a, 0, 1, 0, 1) * d;
    var t0, t1, t2 := M(a, 3, 0), M(a, 3, 1), M(a, 3, 2);
    Mat([i00, i01, i02, 0.0,
         i10, i11, i12, 0.0,
         i20, i21, i22, 0.0,
         -i00 * t0 - i10 * t1 - i20 * t2,
         -i01 * t0 - i11 * t1 - i21 * t2,
         -i02 * t0 - i12 * t1 - i22 * t2,
         1.0],
        a.flags)
  }

  /** The general branch of `inverted`: the 4x4 adjugate over the determinant. */
  function GeneralInverse(a: Mat, d: real): Mat {
    Mat([ Det3(a, 1, 2, 3, 1, 2, 3) * d, -Det3(a, 0, 2, 3, 1, 2, 3) * d,
          Det3(a, 0, 1, 3, 1, 2, 3) * d, -Det3(a, 0, 1, 2, 1, 2, 3) * d,
         -Det3(a, 1, 2, 3, 0, 2, 3) * d,  Det3(a, 0, 2, 3, 0, 2, 3) * d,
         -Det3(a, 0, 1, 3, 0, 2, 3) * d,  Det3(a, 0, 1, 2, 0, 2, 3) * d,
          Det3(a, 1, 2, 3, 0, 1, 3) * d, -Det3(a, 0, 2, 3, 0, 1, 3) * d,
          Det3(a, 0, 1, 3, 0, 1, 3) * d, -Det3(a, 0, 1, 2, 0, 1, 3) * d,
         -Det3(a, 1, 2, 3, 0, 1, 2) * d,  Det3(a, 0, 2, 3, 0, 1, 2) * d,
         -Det3(a, 0, 1, 3, 0, 1, 2) * d,  Det3(a, 0, 1, 2, 0, 1, 2) * d],
        a.flags)
  }

  /** `inverted()`, branch by branch; a singular matrix gives the identity and `invertible = false`. */
  function Inverted(a: Mat): (r: Inverse)
    ensures a.flags == Identity ==> r == Inverse(IdentityMatrix(), true)
    ensures a.flags == Translation ==>
      r.invertible && r.matrix.flags == Translation &&
      forall k | 0 <= k < 3 :: M(r.matrix, 3, k) == -M(a, 3, k)
    ensures !r.invertible ==> r.matrix == IdentityMatrix()
    ensures Identity < a.flags < Rotation2D && a.flags != Translation ==>
      (!r.invertible <==> M(a, 0, 0) == 0.0 || M(a, 1, 1) == 0.0 || M(a, 2, 2) == 0.0)
    ensures Rotation2D <= a.flags < Perspective && a.flags & Scale != 0 ==>
      (!r.invertible <==> Det3(a, 0, 1, 2, 0, 1, 2) == 0.0)
    ensures Perspective <= a.flags ==> (!r.invertible <==> Det4(a) == 0.0)
    ensures a.flags & !(Translation | Rotation2D | Rotation) == Identity ==> r.invertible
    ensures r.invertible ==> r.matrix.flags == a.flags
  {
    if a.flags == Identity then Inverse(IdentityMatrix(), true)
    else if a.flags == Translation then
      Inverse(Mat(IdentityEntries[12 := -a.m[12]][13 := -a.m[13]][14 := -a.m[14]], Translation), true)
    else if a.flags < Rotation2D then
      if a.m[0] == 0.0 || a.m[5] == 0.0 || a.m[10] == 0.0 then Inverse(IdentityMatrix(), false)
      else
        var i0, i5, i10 := 1.0 / a.m[0], 1.0 / a.m[5], 1.0 / a.m[10];
        Inverse(Mat(IdentityEntries[0 := i0][5 := i5][10 := i10]
                      [12 := -a.m[12] * i0][13 := -a.m[13] * i5][14 := -a.m[14] * i10], a.flags),
                true)
    else if a.flags & !(Translation | Rotation2D | Rotation) == Identity then
      Inverse(OrthonormalInverse(a), true)
    else if a.flags < Perspective then
      var det := Det3(a, 0, 1, 2, 0, 1, 2);
      if det == 0.0 then Inverse(IdentityMatrix(), false) else Inverse(AffineInverse(a, 1.0 / det), true)
    else
      var det := Det4(a);
      if det == 0.0 then Inverse(IdentityMatrix(), false) else Inverse(GeneralInverse(a, 1.0 / det), true)
  }

  // ---------------------------------------------------------------------------------------------
  // Scale, translate and orthographic projection (each multiplies this matrix on the right)

  function ScaleMatrix(x: real, y: real, z: real): Mat {
    Mat(IdentityEntries[0 := x][5 := y][10 := z], Scale)
  }

  function TranslationMatrix(x: real, y: real, z: real): Mat {
    Mat(IdentityEntries[12 := x][13 := y][14 := z], Translation)
  }

  /** `scale(x, y, z)`; `scale(QgsVector3D)` and `scale(factor)` are this with their components. */
  function Scaled(a: Mat, x: real, y: real, z: real): (r: Mat)
    ensures a.flags < Scale ==> M(r, 0, 0) == x && M(r, 1, 1) == y && M(r, 2, 2) == z
    ensures r.flags == a.flags | Scale
  {
    var m := a.m;
    var n :=
      if a.flags < Scale then m[0 := x][5 := y][10 := z]
      else if a.flags < Rotation2D then ScaleDiagonal(m, x, y, z)
      else if a.flags < Rotation then ScalePlanar(m, x, y, z)
      else ScaleColumns(m, x, y, z);
    Mat(n, a.flags | Scale)
  }

  /** The Scale branch of `scale`: only the diagonal is multiplied. */
  function ScaleDiagonal(m: Entries, x: real, y: real, z: real): Entries {
    m[0 := m[0] * x][5 := m[5] * y][10 := m[10] * z]
  }

  /** The planar-rotation branch of `scale`: the x/y block and the z diagonal are multiplied. */
  function ScalePlanar(m: Entries, x: real, y: real, z: real): Entries {
    m[0 := m[0] * x][1 := m[1] * x][4 := m[4] * y][5 := m[5] * y][10 := m[10] * z]
  }

  /** The general branch of `scale`: columns 0, 1 and 2 multiplied by x, y and z. */
  function ScaleColumns(m: Entries, x: real, y: real, z: real): Entries {
    ScaleColumnsXY(m, x, y)[8 := m[8] * z][9 := m[9] * z][10 := m[10] * z][11 := m[11] * z]
  }

  /** The general branch of `scale(x, y)`: columns 0 and 1 multiplied by x and y. */
  function ScaleColumnsXY(m: Entries, x: real, y: real): Entries {
    m[0 := m[0] * x][1 := m[1] * x][2 := m[2] * x][3 := m[3] * x]
     [4 := m[4] * y][5 := m[5] * y][6 := m[6] * y][7 := m[7] * y]
  }

  /** `scale(x, y)`. */
  function Scaled2(a: Mat, x: real, y: real): (r: Mat)
    ensures a.flags < Scale ==> M(r, 0, 0) == x && M(r, 1, 1) == y && M(r, 2, 2) == M(a, 2, 2)
    ensures r.flags == a.flags | Scale
  {
    var m := a.m;
    var n :=
      if a.flags < Scale then m[0 := x][5 := y]
      else if a.flags < Rotation2D then m[0 := m[0] * x][5 := m[5] * y]
      else if a.flags < Rotation then m[0 := m[0] * x][1 := m[1] * x][4 := m[4] * y][5 := m[5] * y]
      else ScaleColumnsXY(m, x, y);
    Mat(n, a.flags | Scale)
  }

  /** `translate(x, y, z)`; `translate(QgsVector3D)` is this with the vector's components. */
  function Translated(a: Mat, x: real, y: real, z: real): (r: Mat)
    ensures a.flags == Identity ==> Column(r, 3) == Vec4(x, y, z, M(a, 3, 3))
    ensures a.flags == Translation ==>
      Column(r, 3) == Vec4(M(a, 3, 0) + x, M(a, 3, 1) + y, M(a, 3, 2) + z, M(a, 3, 3))
    ensures r.flags == a.flags | Translation
  {
    var m := a.m;
    var n :=
      if a.flags == Identity then m[12 := x][13 := y][14 := z]
      else if a.flags == Translation then m[12 := m[12] + x][13 := m[13] + y][14 := m[14] + z]
      else if a.flags == Scale then ScaledShift(m, x, y, z)
      else if a.flags == Translation | Scale then ScaledAddedShift(m, x, y, z)
      else if a.flags < Rotation then PlanarShift(m, x, y, z)
      else GeneralShift(m, x, y, z);
    Mat(n, a.flags | Translation)
  }

  /** The Scale branch of `translate`: the translation is the scaled offset. */
  function ScaledShift(m: Entries, x: real, y: real, z: real): Entries {
    m[12 := m[0] * x][13 := m[5] * y][14 := m[10] * z]
  }

  /** The Translation | Scale branch of `translate`: the scaled offset is added. */
  function ScaledAddedShift(m: Entries, x: real, y: real, z: real): Entries {
    m[12 := m[12] + m[0] * x][13 := m[13] + m[5] * y][14 := m[14] + m[10] * z]
  }

  /** The planar-rotation branch of `translate`: rows 0 and 1 couple only x and y. */
  function PlanarShift(m: Entries, x: real, y: real, z: real): Entries {
    m[12 := m[12] + (m[0] * x + m[4] * y)][13 := m[13] + (m[1] * x + m[5] * y)][14 := m[14] + m[10] * z]
  }

  /** The general branch of `translate`: column 3 gains the full linear combination. */
  function GeneralShift(m: Entries, x: real, y: real, z: real): Entries {
    m[12 := m[12] + (m[0] * x + m[4] * y + m[8] * z)]
     [13 := m[13] + (m[1] * x + m[5] * y + m[9] * z)]
     [14 := m[14] + (m[2] * x + m[6] * y + m[10] * z)]
     [15 := m[15] + (m[3] * x + m[7] * y + m[11] * z)]
  }

  /** `translate(x, y)`. */
  function Translated2(a: Mat, x: real, y: real): (r: Mat)
    ensures a.flags == Identity ==> Column(r, 3) == Column(a, 3).(x := x, y := y)
    ensures r.flags == a.flags | Translation
  {
    var m := a.m;
    var n :=
      if a.flags == Identity then m[12 := x][13 := y]
      else if a.flags == Translation then m[12 := m[12] + x][13 := m[13] + y]
      else if a.flags == Scale then m[12 := m[0] * x][13 := m[5] * y]
      else if a.flags == Translation | Scale then m[12 := m[12] + m[0] * x][13 := m[13] + m[5] * y]
      else if a.flags < Rotation then
        m[12 := m[12] + (m[0] * x + m[4] * y)][13 := m[13] + (m[1] * x + m[5] * y)]
      else
        m[12 := m[12] + (m[0] * x + m[4] * y)]
         [13 := m[13] + (m[1] * x + m[5] * y)]
         [14 := m[14] + (m[2] * x + m[6] * y)]
         [15 := m[15] + (m[3] * x + m[7] * y)];
    Mat(n, a.flags | Translation)
  }

  predicate OrthoDegenerate(left: real, right: real, bottom: real, top: real, nearPlane: real, farPlane: real) {
    left == right || bottom == top || nearPlane == farPlane
  }

  /** The projection `ortho` multiplies by: a Translation | Scale matrix. */
  function OrthoMatrix(left: real, right: real, bottom: real, top: real, nearPlane: real, farPlane: real): (r: Mat)
    requires !OrthoDegenerate(left, right, bottom, top, nearPlane, farPlane)
    ensures Describes(r)
  {
    var width, invheight, clip := right - left, top - bottom, farPlane - nearPlane;
    Mat([2.0 / width, 0.0, 0.0, 0.0,
         0.0, 2.0 / invheight, 0.0, 0.0,
         0.0, 0.0, -2.0 / clip, 0.0,
         -(left + right) / width, -(top + bottom) / invheight, -(nearPlane + farPlane) / clip, 1.0],
        Translation | Scale)
  }

  /** `ortho(...)`: a zero-sized projection volume leaves the matrix alone. */
  function Ortho(a: Mat, left: real, right: real, bottom: real, top: real, nearPlane: real, farPlane: real): (r: Mat)
    ensures OrthoDegenerate(left, right, bottom, top, nearPlane, farPlane) ==> r == a
  {
    if OrthoDegenerate(left, right, bottom, top, nearPlane, farPlane) then a
    else Mul(a, OrthoMatrix(left, right, bottom, top, nearPlane, farPlane))
  }

  // ---------------------------------------------------------------------------------------------
  // Recovering the flags

  /**
   * `optimize()`: recompute the flags from the entries. `fuzzyOrthonormal` stands for the outcome
   * of the `qFuzzyCompare` test that the rotation columns are orthonormal, which is floating point.
   */
  function Optimize(a: Mat, fuzzyOrthonormal: bool): (r: Mat)
    ensures r.m == a.m
    ensures Describes(r)
  {
    var m := a.m;
    if m[3] != 0.0 || m[7] != 0.0 || m[11] != 0.0 || m[15] != 1.0 then a.(flags := General)
    else
      var f1 := General & !Perspective;
      var f2 := if m[12] == 0.0 && m[13] == 0.0 && m[14] == 0.0 then f1 & !Translation else f1;
      var f :=
        if m[2] == 0.0 && m[6] == 0.0 && m[8] == 0.0 && m[9] == 0.0 then
          var f3 := f2 & !Rotation;
          if m[1] == 0.0 && m[4] == 0.0 then
            var f4 := f3 & !Rotation2D;
            if m[0] == 1.0 && m[5] == 1.0 && m[10] == 1.0 then f4 & !Scale else f4
          else if fuzzyOrthonormal then f3 & !Scale
          else f3
        else if fuzzyOrthonormal then f2 & !Scale
        else f2;
      a.(flags := f)
  }

  /** The 16 values `operator>>` reads; a value past the end of the stream reads as 0. */
  function StreamValues(stream: seq<real>): (values: seq<real>)
    ensures |values| == 16
  {
    seq(16, i requires 0 <= i < 16 => if i < |stream| then stream[i] else 0.0)
  }

  /** `operator>>`: the entries are read row by row, then `optimize()` recovers the flags. */
  function StreamRead(stream: seq<real>, fuzzyOrthonormal: bool): (r: Mat)
    ensures RowMajor(r) == StreamValues(stream)
    ensures Describes(r)
  {
    Optimize(FromRowMajor(StreamValues(stream)), fuzzyOrthonormal)
  }
}
