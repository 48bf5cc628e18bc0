/**
 * The geometry of a 3D Tiles tileset (OGC 3D Tiles 1.0, "Bounding volumes" and "Tile transforms"):
 * the column-major tile transform read from JSON, the eight-corner cube `Q3dCube` and its outline,
 * a matrix applied to a primitive, the three bounding volumes decoded from their JSON arrays, their
 * cubes and axis-aligned boxes, and the arithmetic of tile ids.
 *
 * JSON arrays are sequences of numbers; reading past the end of a `QJsonArray` gives an undefined
 * value whose `toDouble()` is 0, which is `JsonAt`.
 */
module TilesGeometry {
  import opened Wrappers
  import opened Vectors
  import opened Matrices
  import opened MatrixLemmas
  import opened MatrixObject
  import opened BoundingBoxSettings

  /** `values[i].toDouble()`. */
  function JsonAt(values: seq<real>, i: nat): real {
    if i < |values| then values[i] else 0.0
  }

  // ---------------------------------------------------------------------------------------------
  // The tile transform

  /** The entries `buildFromJson` stores: element `i` of the array is storage cell `i`. */
  function TransformFromJson(values: seq<real>): Entries {
    seq(16, i requires 0 <= i < 16 => JsonAt(values, i))
  }

  /** `buildFromJson` reads the array column by column: entry (row, col) is element `4 * col + row`. */
  lemma TransformFromJsonIsColumnMajor(values: seq<real>)
    ensures forall row, col | 0 <= row < 4 && 0 <= col < 4 ::
      At(Mat(TransformFromJson(values), General), row, col) == JsonAt(values, 4 * col + row)
    ensures Column(Mat(TransformFromJson(values), General), 3)
         == Vec4(JsonAt(values, 12), JsonAt(values, 13), JsonAt(values, 14), JsonAt(values, 15))
  {
  }

  /** The storage cells `setColumn` writes and the ones it keeps. */
  lemma ColumnEntries(before: Mat, after: Mat, column: int, col: Vec4)
    requires 0 <= column < 4 && after == WithColumn(before, column, col)
    ensures forall r | 0 <= r < 4 :: after.m[4 * column + r] == Component(col, r)
    ensures forall k | 0 <= k < 4 * column :: after.m[k] == before.m[k]
  {
  }

  /** `buildFromJson(matrix, array)`: four `setColumn` calls, each from four consecutive numbers. */
  method BuildFromJson(matrix: Matrix4x4, values: seq<real>)
    requires matrix.Valid()
    modifies matrix, matrix.m
    ensures matrix.Valid()
    ensures matrix.Value() == Mat(TransformFromJson(values), General)
  {
    var i := 0;
    var column := 0;
    while column < 4
      invariant 0 <= column <= 4 && i == 4 * column
      invariant matrix.Valid()
      invariant forall k | 0 <= k < i :: matrix.m[k] == JsonAt(values, k)
      invariant column > 0 ==> matrix.flagBits == General
    {
      var col := Null();
      var row := 0;
      while row < 4
        invariant 0 <= row <= 4 && i == 4 * column + row
        invariant forall r | 0 <= r < row :: Component(col, r) == JsonAt(values, 4 * column + r)
        invariant matrix.Valid() && (column > 0 ==> matrix.flagBits == General)
        invariant forall k | 0 <= k < 4 * column :: matrix.m[k] == JsonAt(values, k)
      {
        WithComponentReadsBack(col, row, JsonAt(values, i));
        col := WithComponent(col, row, JsonAt(values, i));
        row := row + 1;
        i := i + 1;
      }
      ghost var before := matrix.Value();
      matrix.SetColumn(column, col);
      ColumnEntries(before, matrix.Value(), column, col);
      forall k | 4 * column <= k < 4 * column + 4 ensures matrix.m[k] == JsonAt(values, k) {
        assert matrix.m[k] == matrix.Value().m[4 * column + (k - 4 * column)];
        assert Component(col, k - 4 * column) == JsonAt(values, k);
      }
      column := column + 1;
    }
    assert matrix.m[..] == TransformFromJson(values);
  }

  // ---------------------------------------------------------------------------------------------
  // Primitives and cubes

  /** Whether cube corner `i` takes its x (y, z) from the upper corner. */
  predicate UpperX(i: int) { i == 1 || i == 2 || i == 5 || i == 6 }
  predicate UpperY(i: int) { i == 2 || i == 3 || i == 6 || i == 7 }
  predicate UpperZ(i: int) { 4 <= i }

  /** `Q3dCube(ll, ur)`: the eight corners, the lower face first, counter-clockwise, `w = 1`. */
  function Cube(ll: Vec3, ur: Vec3): (c: seq<Vec4>)
    ensures |c| == 8
    ensures Xyz(c[0]) == ll && Xyz(c[6]) == ur
    ensures forall i | 0 <= i < 8 :: c[i].w == 1.0
    ensures forall i | 0 <= i < 8 ::
      c[i].x == (if UpperX(i) then ur.x else ll.x) && c[i].y == (if UpperY(i) then ur.y else ll.y)
      && c[i].z == (if UpperZ(i) then ur.z else ll.z)
  {
    [Vec4(ll.x, ll.y, ll.z, 1.0), Vec4(ur.x, ll.y, ll.z, 1.0), Vec4(ur.x, ur.y, ll.z, 1.0),
     Vec4(ll.x, ur.y, ll.z, 1.0), Vec4(ll.x, ll.y, ur.z, 1.0), Vec4(ur.x, ll.y, ur.z, 1.0),
     Vec4(ur.x, ur.y, ur.z, 1.0), Vec4(ll.x, ur.y, ur.z, 1.0)]
  }

  /** A cube of positive extent has eight distinct corners. */
  lemma CubeCornersDistinct(ll: Vec3, ur: Vec3)
    requires ll.x < ur.x && ll.y < ur.y && ll.z < ur.z
    ensures forall i, j | 0 <= i < j < 8 :: Cube(ll, ur)[i] != Cube(ll, ur)[j]
  {
  }

  /** The default `Q3dCube()`: two copies of the origin point. */
  function DefaultCube(): (c: seq<Vec4>)
    ensures |c| == 2 && c[0] == c[1] == Vec4(0.0, 0.0, 0.0, 1.0)
  {
    [Vec4(0.0, 0.0, 0.0, 1.0), Vec4(0.0, 0.0, 0.0, 1.0)]
  }

  /** `matrix * primitive` as a value: every point mapped by the matrix. */
  function Mapped(matrix: Mat, points: seq<Vec4>): seq<Vec4> {
    seq(|points|, i requires 0 <= i < |points| => Times4(matrix, points[i]))
  }

  /** `operator*( matrix, primitive )`: resizes the output and maps point after point. */
  method TransformPrimitive(matrix: Mat, points: seq<Vec4>) returns (out: seq<Vec4>)
    ensures |out| == |points|
    ensures forall i | 0 <= i < |points| :: out[i] == Times4(matrix, points[i])
    ensures out == Mapped(matrix, points)
  {
    out := seq(|points|, _ => Null());
    for i := 0 to |points|
      invariant |out| == |points|
      invariant forall j | 0 <= j < i :: out[j] == Times4(matrix, points[j])
    {
      out := out[i := Times4(matrix, points[i])];
    }
  }

  /** The matrix-vector product composes: `(a * b) * v == a * (b * v)`. */
  lemma Times4Composes(a: Mat, b: Mat, v: Vec4)
    ensures Times4(Product(a, b), v) == Times4(a, Times4(b, v))
  {
    var p := Product(a, b);
    ProductColumnEntries(a, b, 0);
    ProductColumnEntries(a, b, 1);
    ProductColumnEntries(a, b, 2);
    ProductColumnEntries(a, b, 3);
    Times4Row(a, b, p, v, 0);
    Times4Row(a, b, p, v, 1);
    Times4Row(a, b, p, v, 2);
    Times4Row(a, b, p, v, 3);
  }

  /** Row `row` of the matrix-vector product. */
  function Times4At(a: Mat, v: Vec4, row: int): real
    requires 0 <= row < 4
  {
    v.x * M(a, 0, row) + v.y * M(a, 1, row) + v.z * M(a, 2, row) + v.w * M(a, 3, row)
  }

  /** Row `row` of `p * v`, for a `p` whose row `row` is that of `a * b`, is row `row` of `a * (b * v)`. */
  lemma Times4Row(a: Mat, b: Mat, p: Mat, v: Vec4, row: int)
    requires 0 <= row < 4
    requires M(p, 0, row) == Dot4(a, b, row, 0) && M(p, 1, row) == Dot4(a, b, row, 1)
    requires M(p, 2, row) == Dot4(a, b, row, 2) && M(p, 3, row) == Dot4(a, b, row, 3)
    ensures Times4At(p, v, row) == Times4At(a, Times4(b, v), row)
  {
    var weighted := v.x * Dot4(a, b, row, 0) + v.y * Dot4(a, b, row, 1) + v.z * Dot4(a, b, row, 2) + v.w * Dot4(a, b, row, 3);
    assert Times4At(p, v, row) == weighted by {
      SameWeights(v, M(p, 0, row), M(p, 1, row), M(p, 2, row), M(p, 3, row),
                  Dot4(a, b, row, 0), Dot4(a, b, row, 1), Dot4(a, b, row, 2), Dot4(a, b, row, 3));
    }
    assert weighted == Times4At(a, Times4(b, v), row) by {
      SwappedSums(a, b, v, row);
    }
  }

  lemma SameWeights(v: Vec4, x0: real, x1: real, x2: real, x3: real, y0: real, y1: real, y2: real, y3: real)
    requires x0 == y0 && x1 == y1 && x2 == y2 && x3 == y3
    ensures v.x * x0 + v.y * x1 + v.z * x2 + v.w * x3 == v.x * y0 + v.y * y1 + v.z * y2 + v.w * y3
  {
  }

  /** Weighting the entries of row `row` of `a * b` by `v` gives row `row` of `a * (b * v)`. */
  lemma SwappedSums(a: Mat, b: Mat, v: Vec4, row: int)
    requires 0 <= row < 4
    ensures v.x * Dot4(a, b, row, 0) + v.y * Dot4(a, b, row, 1) + v.z * Dot4(a, b, row, 2) + v.w * Dot4(a, b, row, 3)
         == Times4At(a, Times4(b, v), row)
  {
    WeightedDots(a, b, v, row);
    Regroup(v.x, v.y, v.z, v.w, At(a, row, 0), At(a, row, 1), At(a, row, 2), At(a, row, 3),
            At(b, 0, 0), At(b, 0, 1), At(b, 0, 2), At(b, 0, 3),
            At(b, 1, 0), At(b, 1, 1), At(b, 1, 2), At(b, 1, 3),
            At(b, 2, 0), At(b, 2, 1), At(b, 2, 2), At(b, 2, 3),
            At(b, 3, 0), At(b, 3, 1), At(b, 3, 2), At(b, 3, 3));
    NestedRow(a, b, v, row);
  }

  /** Row `row` of `(a * b) * v`, written out entry by entry. */
  lemma WeightedDots(a: Mat, b: Mat, v: Vec4, row: int)
    requires 0 <= row < 4
    ensures v.x * Dot4(a, b, row, 0) + v.y * Dot4(a, b, row, 1) + v.z * Dot4(a, b, row, 2) + v.w * Dot4(a, b, row, 3)
         == v.x * (At(a, row, 0) * At(b, 0, 0) + At(a, row, 1) * At(b, 1, 0) + At(a, row, 2) * At(b, 2, 0) + At(a, row, 3) * At(b, 3, 0))
          + v.y * (At(a, row, 0) * At(b, 0, 1) + At(a, row, 1) * At(b, 1, 1) + At(a, row, 2) * At(b, 2, 1) + At(a, row, 3) * At(b, 3, 1))
          + v.z * (At(a, row, 0) * At(b, 0, 2) + At(a, row, 1) * At(b, 1, 2) + At(a, row, 2) * At(b, 2, 2) + At(a, row, 3) * At(b, 3, 2))
          + v.w * (At(a, row, 0) * At(b, 0, 3) + At(a, row, 1) * At(b, 1, 3) + At(a, row, 2) * At(b, 2, 3) + At(a, row, 3) * At(b, 3, 3))
  {
    WeightedDot(a, b, v.x, row, 0);
    WeightedDot(a, b, v.y, row, 1);
    WeightedDot(a, b, v.z, row, 2);
    WeightedDot(a, b, v.w, row, 3);
  }

  lemma WeightedDot(a: Mat, b: Mat, x: real, row: int, col: int)
    requires 0 <= row < 4 && 0 <= col < 4
    ensures x * Dot4(a, b, row, col) == x * (At(a, row, 0) * At(b, 0, col) + At(a, row, 1) * At(b, 1, col) + At(a, row, 2) * At(b, 2, col) + At(a, row, 3) * At(b, 3, col))
  {
  }

  /** Row `row` of `a * (b * v)`, written out entry by entry. */
  lemma NestedRow(a: Mat, b: Mat, v: Vec4, row: int)
    requires 0 <= row < 4
    ensures Times4At(a, Times4(b, v), row)
         == (v.x * At(b, 0, 0) + v.y * At(b, 0, 1) + v.z * At(b, 0, 2) + v.w * At(b, 0, 3)) * At(a, row, 0)
          + (v.x * At(b, 1, 0) + v.y * At(b, 1, 1) + v.z * At(b, 1, 2) + v.w * At(b, 1, 3)) * At(a, row, 1)
          + (v.x * At(b, 2, 0) + v.y * At(b, 2, 1) + v.z * At(b, 2, 2) + v.w * At(b, 2, 3)) * At(a, row, 2)
          + (v.x * At(b, 3, 0) + v.y * At(b, 3, 1) + v.z * At(b, 3, 2) + v.w * At(b, 3, 3)) * At(a, row, 3)
  {
    var u := Times4(b, v);
    NestedTerm(u.x, v.x * At(b, 0, 0) + v.y * At(b, 0, 1) + v.z * At(b, 0, 2) + v.w * At(b, 0, 3), At(a, row, 0));
    NestedTerm(u.y, v.x * At(b, 1, 0) + v.y * At(b, 1, 1) + v.z * At(b, 1, 2) + v.w * At(b, 1, 3), At(a, row, 1));
    NestedTerm(u.z, v.x * At(b, 2, 0) + v.y * At(b, 2, 1) + v.z * At(b, 2, 2) + v.w * At(b, 2, 3), At(a, row, 2));
    NestedTerm(u.w, v.x * At(b, 3, 0) + v.y * At(b, 3, 1) + v.z * At(b, 3, 2) + v.w * At(b, 3, 3), At(a, row, 3));
  }

  lemma NestedTerm(u: real, s: real, x: real)
    requires u == s
    ensures u * x == s * x
  {
  }

  /** The two orders of summing `v[c] * a[k] * b[k][c]` over `c` and `k` agree. */
  lemma Regroup(v0: real, v1: real, v2: real, v3: real, a0: real, a1: real, a2: real, a3: real,
                b00: real, b01: real, b02: real, b03: real, b10: real, b11: real, b12: real, b13: real,
                b20: real, b21: real, b22: real, b23: real, b30: real, b31: real, b32: real, b33: real)
    ensures v0 * (a0 * b00 + a1 * b10 + a2 * b20 + a3 * b30) + v1 * (a0 * b01 + a1 * b11 + a2 * b21 + a3 * b31)
          + v2 * (a0 * b02 + a1 * b12 + a2 * b22 + a3 * b32) + v3 * (a0 * b03 + a1 * b13 + a2 * b23 + a3 * b33)
         == (v0 * b00 + v1 * b01 + v2 * b02 + v3 * b03) * a0 + (v0 * b10 + v1 * b11 + v2 * b12 + v3 * b13) * a1
          + (v0 * b20 + v1 * b21 + v2 * b22 + v3 * b23) * a2 + (v0 * b30 + v1 * b31 + v2 * b32 + v3 * b33) * a3
  {
    Distribute(v0, a0, b00, a1, b10, a2, b20, a3, b30);
    Distribute(v1, a0, b01, a1, b11, a2, b21, a3, b31);
    Distribute(v2, a0, b02, a1, b12, a2, b22, a3, b32);
    Distribute(v3, a0, b03, a1, b13, a2, b23, a3, b33);
    FactorOut(a0, v0, b00, v1, b01, v2, b02, v3, b03);
    FactorOut(a1, v0, b10, v1, b11, v2, b12, v3, b13);
    FactorOut(a2, v0, b20, v1, b21, v2, b22, v3, b23);
    FactorOut(a3, v0, b30, v1, b31, v2, b32, v3, b33);
    SumsAgree(a0 * (v0 * b00), a0 * (v1 * b01), a0 * (v2 * b02), a0 * (v3 * b03),
              a1 * (v0 * b10), a1 * (v1 * b11), a1 * (v2 * b12), a1 * (v3 * b13),
              a2 * (v0 * b20), a2 * (v1 * b21), a2 * (v2 * b22), a2 * (v3 * b23),
              a3 * (v0 * b30), a3 * (v1 * b31), a3 * (v2 * b32), a3 * (v3 * b33),
              v0 * (a0 * b00 + a1 * b10 + a2 * b20 + a3 * b30), v1 * (a0 * b01 + a1 * b11 + a2 * b21 + a3 * b31),
              v2 * (a0 * b02 + a1 * b12 + a2 * b22 + a3 * b32), v3 * (a0 * b03 + a1 * b13 + a2 * b23 + a3 * b33),
              (v0 * b00 + v1 * b01 + v2 * b02 + v3 * b03) * a0, (v0 * b10 + v1 * b11 + v2 * b12 + v3 * b13) * a1,
              (v0 * b20 + v1 * b21 + v2 * b22 + v3 * b23) * a2, (v0 * b30 + v1 * b31 + v2 * b32 + v3 * b33) * a3);
  }

  /** Summing a 4 by 4 table by columns or by rows gives the same total. */
  lemma SumsAgree(n00: real, n01: real, n02: real, n03: real, n10: real, n11: real, n12: real, n13: real,
                  n20: real, n21: real, n22: real, n23: real, n30: real, n31: real, n32: real, n33: real,
                  s0: real, s1: real, s2: real, s3: real, t0: real, t1: real, t2: real, t3: real)
    requires s0 == n00 + n10 + n20 + n30 && s1 == n01 + n11 + n21 + n31
    requires s2 == n02 + n12 + n22 + n32 && s3 == n03 + n13 + n23 + n33
    requires t0 == n00 + n01 + n02 + n03 && t1 == n10 + n11 + n12 + n13
    requires t2 == n20 + n21 + n22 + n23 && t3 == n30 + n31 + n32 + n33
    ensures s0 + s1 + s2 + s3 == t0 + t1 + t2 + t3
  {
  }

  lemma Distribute(x: real, a0: real, b0: real, a1: real, b1: real, a2: real, b2: real, a3: real, b3: real)
    ensures x * (a0 * b0 + a1 * b1 + a2 * b2 + a3 * b3) == a0 * (x * b0) + a1 * (x * b1) + a2 * (x * b2) + a3 * (x * b3)
  {
  }

  lemma FactorOut(a: real, x0: real, b0: real, x1: real, b1: real, x2: real, b2: real, x3: real, b3: real)
    ensures (x0 * b0 + x1 * b1 + x2 * b2 + x3 * b3) * a == a * (x0 * b0) + a * (x1 * b1) + a * (x2 * b2) + a * (x3 * b3)
  {
  }

  /** The four entries of row `row` of the general product. */
  lemma ProductColumnEntries(a: Mat, b: Mat, row: int)
    requires 0 <= row < 4
    ensures M(Product(a, b), 0, row) == Dot4(a, b, row, 0) && M(Product(a, b), 1, row) == Dot4(a, b, row, 1)
    ensures M(Product(a, b), 2, row) == Dot4(a, b, row, 2) && M(Product(a, b), 3, row) == Dot4(a, b, row, 3)
  {
    ProductEntry(a, b, 0, row);
    ProductEntry(a, b, 1, row);
    ProductEntry(a, b, 2, row);
    ProductEntry(a, b, 3, row);
  }

  lemma ProductEntry(a: Mat, b: Mat, col: int, row: int)
    requires 0 <= col < 4 && 0 <= row < 4
    ensures M(Product(a, b), col, row) == Dot4(a, b, row, col)
  {
    assert (4 * col + row) % 4 == row && (4 * col + row) / 4 == col;
  }

  /**
   * Applying `a * b` to a primitive is applying `b` and then `a`, whenever both matrices' flags
   * tell the truth (so `operator*` computes the full product).
   */
  lemma MappedComposes(a: Mat, b: Mat, points: seq<Vec4>)
    requires Describes(a) && Describes(b)
    ensures Mapped(Mul(a, b), points) == Mapped(a, Mapped(b, points))
  {
    MulIsProduct(a, b);
    forall i | 0 <= i < |points|
      ensures Mapped(Mul(a, b), points)[i] == Mapped(a, Mapped(b, points))[i]
    {
      Times4Composes(a, b, points[i]);
    }
  }

  /** The order in which `asQgsPoints` visits the eight corners to draw the cube as one line string. */
  const OutlineOrder: seq<int> := [0, 1, 2, 3, 0, 4, 5, 6, 7, 4, 3, 7, 2, 6, 1, 5]

  /** The points of `asQgsPoints`, from the `x, y, z` of each point. */
  function Outline(corners: seq<Vec3>): (pts: seq<Vec3>)
    ensures |corners| == 8 ==> |pts| == 16
    ensures |corners| != 8 ==> pts == corners
  {
    if |corners| == 8 then seq(16, k requires 0 <= k < 16 => corners[OutlineOrder[k]]) else corners
  }

  /** Two corners of a cube share an edge when they differ in exactly one coordinate. */
  predicate CubeEdge(i: int, j: int) {
    0 <= i < 8 && 0 <= j < 8 &&
    (if UpperX(i) == UpperX(j) then 0 else 1) + (if UpperY(i) == UpperY(j) then 0 else 1)
      + (if UpperZ(i) == UpperZ(j) then 0 else 1) == 1
  }

  /** Steps `k` to `k + 1` of the outline join corners `i` and `j` (either way round). */
  predicate OutlineStep(k: int, i: int, j: int)
    requires 0 <= k < 15
  {
    (OutlineOrder[k] == i && OutlineOrder[k + 1] == j) || (OutlineOrder[k] == j && OutlineOrder[k + 1] == i)
  }

  /** The outline path draws all twelve edges of the cube. */
  lemma OutlineDrawsEveryEdge(i: int, j: int)
    requires CubeEdge(i, j)
    ensures exists k | 0 <= k < 15 :: OutlineStep(k, i, j)
  {
    assert OutlineStep(0, i, j) || OutlineStep(1, i, j) || OutlineStep(2, i, j) || OutlineStep(3, i, j)
        || OutlineStep(4, i, j) || OutlineStep(5, i, j) || OutlineStep(6, i, j) || OutlineStep(7, i, j)
        || OutlineStep(8, i, j) || OutlineStep(9, i, j) || OutlineStep(10, i, j) || OutlineStep(11, i, j)
        || OutlineStep(12, i, j) || OutlineStep(13, i, j) || OutlineStep(14, i, j);
  }

  /** `asQgsPoints`: the points as `QgsPoint`s, laid out as the outline path when there are eight. */
  method AsQgsPoints(points: seq<Vec4>) returns (pts: seq<Vec3>)
    ensures pts == Outline(seq(|points|, i requires 0 <= i < |points| => Xyz(points[i])))
  {
    var cubePts: seq<Vec3> := [];
    for i := 0 to |points|
      invariant cubePts == seq(i, j requires 0 <= j < i => Xyz(points[j]))
    {
      cubePts := cubePts + [Xyz(points[i])];
    }
    if |cubePts| == 8 {
      pts := [cubePts[0], cubePts[1], cubePts[2], cubePts[3], cubePts[0], cubePts[4], cubePts[5], cubePts[6]];
      pts := pts + [cubePts[7], cubePts[4], cubePts[3], cubePts[7], cubePts[2], cubePts[6], cubePts[1], cubePts[5]];
    } else {
      pts := [];
      for i := 0 to |cubePts|
        invariant pts == cubePts[..i]
      {
        pts := pts + [cubePts[i]];
      }
    }
  }

  // ---------------------------------------------------------------------------------------------
  // Bounding volumes

  /**
   * The three bounding volumes: a box by its centre and three half-axis vectors, a sphere by its
   * centre and radius, a region by its lower and upper corner.
   */
  datatype BoundingVolume =
    | Box(center: Vec3, u: Vec3, v: Vec3, w: Vec3)
    | Sphere(center: Vec3, radius: real)
    | Region(ll: Vec3, ur: Vec3)

  /** The EPSG code of `mEpsg`: the constructors of Box and Sphere both end at 4978. */
  function Epsg(bv: BoundingVolume): int {
    if bv.Region? then 4979 else 4978
  }

  /** `Box(value)`: centre from elements 0-2, then U, V and W from 3-5, 6-8 and 9-11. */
  function BoxFromJson(value: seq<real>): BoundingVolume {
    Box(Vec3(JsonAt(value, 0), JsonAt(value, 1), JsonAt(value, 2)),
        Vec3(JsonAt(value, 3), JsonAt(value, 4), JsonAt(value, 5)),
        Vec3(JsonAt(value, 6), JsonAt(value, 7), JsonAt(value, 8)),
        Vec3(JsonAt(value, 9), JsonAt(value, 10), JsonAt(value, 11)))
  }

  /** `Sphere(value)`: centre from elements 0-2, radius from element 3. */
  function SphereFromJson(value: seq<real>): BoundingVolume {
    Sphere(Vec3(JsonAt(value, 0), JsonAt(value, 1), JsonAt(value, 2)), JsonAt(value, 3))
  }

  /** `Region(value)`: (west, south, east, north, minimum height, maximum height). */
  function RegionFromJson(value: seq<real>): BoundingVolume {
    Region(Vec3(JsonAt(value, 0), JsonAt(value, 1), JsonAt(value, 4)),
           Vec3(JsonAt(value, 2), JsonAt(value, 3), JsonAt(value, 5)))
  }

  /** The JSON array of a bounding volume in the layout of the 3D Tiles specification. */
  function ToJson(bv: BoundingVolume): seq<real> {
    match bv
    case Box(c, u, v, w) => [c.x, c.y, c.z, u.x, u.y, u.z, v.x, v.y, v.z, w.x, w.y, w.z]
    case Sphere(c, r) => [c.x, c.y, c.z, r]
    case Region(ll, ur) => [ll.x, ll.y, ur.x, ur.y, ll.z, ur.z]
  }

  /** Decoding is the inverse of the layout, both ways round. */
  lemma BoundingVolumeRoundTrip(bv: BoundingVolume, value: seq<real>)
    ensures bv.Box? ==> BoxFromJson(ToJson(bv)) == bv
    ensures bv.Sphere? ==> SphereFromJson(ToJson(bv)) == bv
    ensures bv.Region? ==> RegionFromJson(ToJson(bv)) == bv
    ensures |value| >= 12 ==> ToJson(BoxFromJson(value)) == value[..12]
    ensures |value| >= 4 ==> ToJson(SphereFromJson(value)) == value[..4]
    ensures |value| >= 6 ==> ToJson(RegionFromJson(value)) == value[..6]
  {
  }

  /** A region takes its west/east from 0 and 2, south/north from 1 and 3, heights from 4 and 5. */
  lemma RegionCorners(value: seq<real>)
    requires |value| >= 6
    ensures RegionFromJson(value).ll == Vec3(value[0], value[1], value[4])
    ensures RegionFromJson(value).ur == Vec3(value[2], value[3], value[5])
  {
  }

  /** `Box::fromRotationTranslation`: the half axes as columns, the centre as the translation. */
  function RotationTranslation(center: Vec3, u: Vec3, v: Vec3, w: Vec3): (r: Mat)
    ensures Column(r, 0) == FromVec3(u, 0.0) && Column(r, 1) == FromVec3(v, 0.0)
    ensures Column(r, 2) == FromVec3(w, 0.0) && Column(r, 3) == FromVec3(center, 1.0)
  {
    FromArgs(u.x, v.x, w.x, center.x,
             u.y, v.y, w.y, center.y,
             u.z, v.z, w.z, center.z,
             0.0, 0.0, 0.0, 1.0)
  }

  /** `Q3dPrimitive::reproject`: x, y, z go through the coordinate transform, w is kept. */
  function Reprojected(points: seq<Vec4>, transformCoords: Vec3 -> Vec3): (r: seq<Vec4>)
    ensures |r| == |points|
  {
    seq(|points|, i requires 0 <= i < |points| => FromVec3(transformCoords(Xyz(points[i])), points[i].w))
  }

  /**
   * A coordinate transform handed to `asCube`: its source CRS and its effect on coordinates
   * (`QgsCoordinateTransform::transformCoords`, a call into code this model does not include).
   */
  datatype CoordinateTransform = CoordinateTransform(sourceEpsg: int, transformCoords: Vec3 -> Vec3)

  /** The cube of a volume before any transform. */
  function LocalCube(bv: BoundingVolume): seq<Vec4> {
    match bv
    case Box(_, _, _, _) => Cube(Vec3(-1.0, -1.0, -1.0), Vec3(1.0, 1.0, 1.0))
    case Sphere(c, r) => Cube(Vec3(c.x - r, c.y - r, c.z - r), Vec3(c.x + r, c.y + r, c.z + r))
    case Region(ll, ur) => Cube(ll, ur)
  }

  /** The matrix `asCube` applies to the local cube. */
  function CubeMatrix(bv: BoundingVolume, transform: Mat): Mat {
    match bv
    case Box(c, u, v, w) => Mul(transform, RotationTranslation(c, u, v, w))
    case Sphere(_, _) => transform
    case Region(_, _) => transform
  }

  /**
   * `asCube(transform, coordTrans)`: `checkCoordinateTransform` throws when the transform's source
   * CRS is not the volume's; otherwise the local cube mapped by the matrix, then reprojected.
   */
  function AsCube(bv: BoundingVolume, transform: Mat, coordTrans: Option<CoordinateTransform>): (r: Result<seq<Vec4>>)
    ensures r.Failure? <==> coordTrans.Some? && coordTrans.value.sourceEpsg != Epsg(bv)
    ensures r.Success? ==> |r.value| == 8
  {
    if coordTrans.Some? && coordTrans.value.sourceEpsg != Epsg(bv) then
      Failure("Bounding volume CRS does not match transform CRS")
    else
      var cube := Mapped(CubeMatrix(bv, transform), LocalCube(bv));
      if coordTrans.Some? then Success(Reprojected(cube, coordTrans.value.transformCoords)) else Success(cube)
  }

  /** Without a coordinate transform the identity leaves a sphere's cube at `center ± radius`. */
  lemma SphereCubeAroundCenter(center: Vec3, radius: real)
    ensures var r := AsCube(Sphere(center, radius), IdentityMatrix(), None);
      r.Success? && Xyz(r.value[0]) == Vec3(center.x - radius, center.y - radius, center.z - radius)
      && Xyz(r.value[6]) == Vec3(center.x + radius, center.y + radius, center.z + radius)
  {
    var cube := LocalCube(Sphere(center, radius));
    IdentityMaps(cube[0]);
    IdentityMaps(cube[6]);
  }

  /** Without a coordinate transform the identity leaves a box's cube at `center ∓ (u + v + w)`. */
  lemma BoxCubeCorners(center: Vec3, u: Vec3, v: Vec3, w: Vec3)
    ensures var r := AsCube(Box(center, u, v, w), IdentityMatrix(), None);
      r.Success? &&
      Xyz(r.value[0]) == Vec3(center.x - u.x - v.x - w.x, center.y - u.y - v.y - w.y, center.z - u.z - v.z - w.z) &&
      Xyz(r.value[6]) == Vec3(center.x + u.x + v.x + w.x, center.y + u.y + v.y + w.y, center.z + u.z + v.z + w.z)
  {
    var rot := RotationTranslation(center, u, v, w);
    IdentityMulGeneral(rot);
    var cube := LocalCube(Box(center, u, v, w));
    assert cube[0] == Vec4(-1.0, -1.0, -1.0, 1.0) && cube[6] == Vec4(1.0, 1.0, 1.0, 1.0);
    RotationTranslationMaps(center, u, v, w, cube[0]);
    RotationTranslationMaps(center, u, v, w, cube[6]);
  }

  /** The box matrix sends `(p.x, p.y, p.z, p.w)` to `p.x u + p.y v + p.z w + p.w center`. */
  lemma RotationTranslationMaps(center: Vec3, u: Vec3, v: Vec3, w: Vec3, p: Vec4)
    ensures Times4(RotationTranslation(center, u, v, w), p)
         == Vec4(p.x * u.x + p.y * v.x + p.z * w.x + p.w * center.x,
                 p.x * u.y + p.y * v.y + p.z * w.y + p.w * center.y,
                 p.x * u.z + p.y * v.z + p.z * w.z + p.w * center.z, p.w)
  {
    var r := RotationTranslation(center, u, v, w);
    assert Column(r, 0) == FromVec3(u, 0.0) && Column(r, 1) == FromVec3(v, 0.0);
    assert Column(r, 2) == FromVec3(w, 0.0) && Column(r, 3) == FromVec3(center, 1.0);
  }

  lemma IdentityMaps(p: Vec4)
    ensures Times4(IdentityMatrix(), p) == p
  {
  }

  lemma IdentityMulGeneral(a: Mat)
    requires a.flags == General
    ensures Mul(IdentityMatrix(), a) == a
  {
    IdentityTimes(a);
  }

  /**
   * `asQgsAABB`: the cube, optionally multiplied by the y/z flip, and the box spanned by its
   * corners 0 (`ll()`) and 6 (`ur()`), each axis put in order by the `QgsAABB` constructor.
   */
  function AsAabb(bv: BoundingVolume, transform: Mat, coordTrans: Option<CoordinateTransform>,
                  flipZY: bool, flipMatrix: Mat): (r: Result<AABB>)
    ensures r.Failure? <==> AsCube(bv, transform, coordTrans).Failure?
    ensures r.Success? ==> r.value.xMin <= r.value.xMax && r.value.yMin <= r.value.yMax && r.value.zMin <= r.value.zMax
    ensures r.Success? && !flipZY ==>
      var cube := AsCube(bv, transform, coordTrans).value;
      InBox(Xyz(cube[0]), r.value) && InBox(Xyz(cube[6]), r.value)
  {
    var cube := AsCube(bv, transform, coordTrans);
    if cube.Failure? then Failure(cube.error)
    else
      var c := if flipZY then Mapped(flipMatrix, cube.value) else cube.value;
      Success(CornersBox(c[0], c[6]))
  }

  function MinOf(a: real, b: real): real { if b < a then b else a }

  function MaxOf(a: real, b: real): real { if b < a then a else b }

  /**
   * `QgsAABB(ll.x, ll.y, ll.z, ur.x, ur.y, ur.z)`. The `QgsAABB` constructor swaps each pair whose
   * maximum is below its minimum, so a rotated or flipped cube still gives a well-ordered box.
   */
  function CornersBox(ll: Vec4, ur: Vec4): (b: AABB)
    ensures b.xMin <= b.xMax && b.yMin <= b.yMax && b.zMin <= b.zMax
    ensures {b.xMin, b.xMax} == {ll.x, ur.x} && {b.yMin, b.yMax} == {ll.y, ur.y}
    ensures {b.zMin, b.zMax} == {ll.z, ur.z}
  {
    AABB(MinOf(ll.x, ur.x), MinOf(ll.y, ur.y), MinOf(ll.z, ur.z),
         MaxOf(ll.x, ur.x), MaxOf(ll.y, ur.y), MaxOf(ll.z, ur.z))
  }

  predicate Between(x: real, a: real, b: real) {
    (a <= x <= b) || (b <= x <= a)
  }

  /** A point lies in the box of two corners exactly when it lies between them on every axis. */
  lemma CornersBoxSpans(ll: Vec4, ur: Vec4, p: Vec3)
    ensures InBox(p, CornersBox(ll, ur)) <==> Between(p.x, ll.x, ur.x) && Between(p.y, ll.y, ur.y) && Between(p.z, ll.z, ur.z)
    ensures InBox(Xyz(ll), CornersBox(ll, ur)) && InBox(Xyz(ur), CornersBox(ll, ur))
  {
  }

  /** The test in `Tile::contains`: inside the box, borders included. */
  predicate InBox(point: Vec3, c: AABB) {
    point.x >= c.xMin && point.y >= c.yMin && point.z >= c.zMin
    && point.x <= c.xMax && point.y <= c.yMax && point.z <= c.zMax
  }

  /** A region's box contains its own corners and centre when the transform is the identity. */
  lemma RegionBoxContainsCenter(ll: Vec3, ur: Vec3)
    requires ll.x <= ur.x && ll.y <= ur.y && ll.z <= ur.z
    ensures var r := AsAabb(Region(ll, ur), IdentityMatrix(), None, false, IdentityMatrix());
      r.Success? && InBox(ll, r.value) && InBox(ur, r.value) && InBox(Center(r.value), r.value)
  {
    var cube := LocalCube(Region(ll, ur));
    IdentityMaps(cube[0]);
    IdentityMaps(cube[6]);
  }

  // ---------------------------------------------------------------------------------------------
  // Tile ids

  /** `QgsAABB::xCenter()` and its two siblings. */
  function Center(b: AABB): Vec3 {
    Vec3((b.xMin + b.xMax) / 2.0, (b.yMin + b.yMax) / 2.0, (b.zMin + b.zMax) / 2.0)
  }

  /** A double converted to `int`: truncation toward zero. */
  function Truncate(r: real): (n: int)
    ensures r >= 0.0 ==> n as real <= r < n as real + 1.0
    ensures r < 0.0 ==> n as real - 1.0 < r <= n as real
  {
    if r >= 0.0 then r.Floor else -((-r).Floor)
  }

  /** The values of a 32-bit C++ `int`. */
  type Int32 = n: int | -0x8000_0000 <= n < 0x8000_0000

  /**
   * A double whose conversion to `int` is defined: its truncation toward zero is an `int`, so it
   * lies strictly between -2^31 - 1 and 2^31.
   */
  predicate ConvertsToInt(r: real) {
    -0x8000_0001 as real < r < 0x8000_0000 as real
  }

  /** `QgsChunkNodeId(d, x, y, z)`, whose four coordinates are `int`s. */
  datatype ChunkNodeId = ChunkNodeId(d: Int32, x: Int32, y: Int32, z: Int32)

  /** The failure of an offset whose conversion to `int` the source leaves undefined. */
  const OffsetOutOfRange := "tile offset does not fit in an int"

  /**
   * `encodeTileId`: the level and the offset of the tile's centre from the root's, in thousandths,
   * each truncated to an `int`. An offset outside the range of `int` fails.
   */
  function EncodeTileId(level: Int32, tileBb: AABB, rootBb: AABB): (r: Result<ChunkNodeId>)
    ensures var c, o := Center(tileBb), Center(rootBb);
      r.Success? <==> ConvertsToInt((c.x - o.x) * 1000.0) && ConvertsToInt((c.y - o.y) * 1000.0)
                      && ConvertsToInt((c.z - o.z) * 1000.0)
    ensures r.Success? ==> r.value.d == level
  {
    var c, o := Center(tileBb), Center(rootBb);
    var x, y, z := Truncate((c.x - o.x) * 1000.0), Truncate((c.y - o.y) * 1000.0), Truncate((c.z - o.z) * 1000.0);
    if -0x8000_0000 <= x < 0x8000_0000 && -0x8000_0000 <= y < 0x8000_0000 && -0x8000_0000 <= z < 0x8000_0000 then
      Success(ChunkNodeId(level, x, y, z))
    else
      Failure(OffsetOutOfRange)
  }

  /** `decodeTileId`: the point the id's offsets designate. */
  function DecodeTileId(id: ChunkNodeId, rootBb: AABB): Vec3 {
    var r := Center(rootBb);
    Vec3(id.x as real / 1000.0 + r.x, id.y as real / 1000.0 + r.y, id.z as real / 1000.0 + r.z)
  }

  /** Decoding an encoded id gives a point within a thousandth of the tile's centre, per coordinate. */
  lemma DecodeEncodeNearCenter(level: Int32, tileBb: AABB, rootBb: AABB)
    ensures var e, c := EncodeTileId(level, tileBb, rootBb), Center(tileBb);
      e.Success? ==> var p := DecodeTileId(e.value, rootBb);
        -1.0 / 1000.0 < p.x - c.x < 1.0 / 1000.0 && -1.0 / 1000.0 < p.y - c.y < 1.0 / 1000.0
        && -1.0 / 1000.0 < p.z - c.z < 1.0 / 1000.0
  {
    var c, r := Center(tileBb), Center(rootBb);
    TruncateNear((c.x - r.x) * 1000.0);
    TruncateNear((c.y - r.y) * 1000.0);
    TruncateNear((c.z - r.z) * 1000.0);
  }

  lemma TruncateNear(r: real)
    ensures -1.0 < Truncate(r) as real - r < 1.0
  {
  }

  /** A tile centred exactly where an id points encodes back to that id. */
  lemma EncodeDecodeRoundTrip(id: ChunkNodeId, tileBb: AABB, rootBb: AABB)
    requires Center(tileBb) == DecodeTileId(id, rootBb)
    ensures EncodeTileId(id.d, tileBb, rootBb) == Success(id)
  {
    var c, r := Center(tileBb), Center(rootBb);
    assert (c.x - r.x) * 1000.0 == id.x as real;
    assert (c.y - r.y) * 1000.0 == id.y as real;
    assert (c.z - r.z) * 1000.0 == id.z as real;
    TruncateWhole(id.x);
    TruncateWhole(id.y);
    TruncateWhole(id.z);
  }

  lemma TruncateWhole(n: int)
    ensures Truncate(n as real) == n
  {
  }

  /**
   * A tile whose centre lies 6 350 km east of the root's, as in a global geocentric tileset, has
   * no id: its offset is 6 350 000 000 thousandths, beyond the largest `int`.
   */
  lemma FarTileHasNoId(level: Int32)
    ensures EncodeTileId(level, AABB(6300000.0, 0.0, 0.0, 6400000.0, 0.0, 0.0),
                         AABB(-6400000.0, 0.0, 0.0, 6400000.0, 0.0, 0.0)).Failure?
  {
    assert !ConvertsToInt((6350000.0 - 0.0) * 1000.0);
  }
}
