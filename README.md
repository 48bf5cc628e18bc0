# QGIS 3D Tiles, elevation profiles and 3D view settings, modelled in Dafny

This project models a group of self-contained pieces of QGIS and states what they promise:

- **`QgsMatrix4x4` and `QgsVector4D`** (`Vectors`, `Matrices`, `MatrixLemmas`, `MatrixObject`).
  A matrix is sixteen doubles stored column by column, plus the `flagBits` tag that tells the
  fast paths what kind of transform it is. The value-level meaning of each operation lives in
  `Matrices`. The in-place class `MatrixObject.Matrix4x4` is proved against it, and keeps the
  invariant that its flags tell the truth about its entries. `MatrixLemmas` proves what follows
  from that invariant:
  - the shortcuts of `operator*`, `scale` and `translate` compute the full product;
  - the special branches of `inverted` give true inverses;
  - the row-major constructors, `copyDataTo`, `transposed` and the stream operators are the
    index permutations they should be.
- **The 3D Tiles tileset** (`TilesGeometry`, `Tiles3D`), following OGC 3D Tiles 1.0.
  - `TilesGeometry` covers bounding volumes (box, sphere, region), column-major tile transforms,
    the eight-corner `Q3dCube` and its outline, and tile-id encoding.
  - `Tiles3D.TileStore` holds the tree of tiles and tilesets in one growing sequence, with
    sequence indices as the parent and child links. It covers lazy children, the combined-transform cache, the root-tileset
    walk behind the option getters, `findTile` and content loading.
- **The b3dm reader** (`B3dmReader`). It reads the Batched 3D Model header, the feature and batch
  tables and the glTF payload from a device with a read cursor.
- **Vector and mesh elevation profiles** (`VectorProfile`, `MeshProfile`):
  - feature z to profile height under the three clamping modes;
  - in-place clamping of line strings and polygons;
  - the identify and snap visitors, and the point branch of `visitFeaturesAtPoint`;
  - the `minZ`/`maxZ` bookkeeping of `processPoint`;
  - the mesh results and the bookkeeping of `generateProfile`.
- **3D view settings and render views**:
  - `AxisSettings`, `BoundingBoxSettings`: the XML serialisers of the axis and bounding-box
    settings, with their copy and equality.
  - `AxisRenderView`: the axis viewport placement.
  - `RenderViews`, `FrameGraph`, `LegacyFrameGraph`: the name-to-view registry of both
    `QgsShadowRenderingFrameGraph` versions, the debug-quad corner table and the stored
    ambient-occlusion and eye-dome-lighting settings.
  - `WiredMesh`: the vertex buffer of `Qgs3DWiredMesh`.
- **ODBC identifier quoting** (`OdbcUtil`), which follows the delimited-identifier rule of ISO/IEC
  9075, section 5.2: a `"` inside `"…"` is doubled.
- **The `QgsVectorLayerElevationProperties` contract** (`ElevationProperties`), as its Python unit
  test states it.

Doubles are reals. NaN, a missing z and an unknown terrain height are `None` of `Wrappers.Option`.
A thrown exception is `Failure` of `Wrappers.Result`. `Dom` holds the part of `QDomElement` the
serialisers use.

Where the code departs from what its authors evidently meant, the model keeps the code as written
and, beside it, a corrected definition that the rest of the model uses; "## Findings" lists these.

## Model

| member | source | states |
|---|---|---|
| Vectors.FromXYZ | src/3d/3dtiles/qgsvector4d.h:37-38 | the `(x, y, z)` constructor keeps the three coordinates and sets w to 0 |
| Vectors.FromVec3 | src/3d/3dtiles/qgsvector4d.h:41-42 | the `(QgsVector3D, w)` constructor keeps the vector's coordinates and the given w |
| Vectors.NullIsNull | src/3d/3dtiles/qgsvector4d.h:34-49 | the default vector is null, and `isNull()` holds exactly for the all-zero vector |
| Vectors.ComponentsRebuild | src/3d/3dtiles/qgsvector4d.h:109-123 | the const `operator[]` reads x, y, z and w at indices 0 to 3 (which rebuild the vector) and 0 at any other index |
| Vectors.WithComponentReadsBack | src/3d/3dtiles/qgsvector4d.h:93-107 | a write through `operator[](i)` reads back at `i` and leaves the other three coordinates |
| Vectors.AddSubInverse | src/3d/3dtiles/qgsvector4d.h:135-144 | `+` and `-` are componentwise: `(a + b) - b == a`, `(a - b) + b == a`, `+` commutes and `a - a` is null |
| Vectors.DivUndoesTimes | src/3d/3dtiles/qgsvector4d.h:147-157 | dividing by a non-zero factor undoes multiplying by it |
| Vectors.DotProperties | src/3d/3dtiles/qgsvector4d.h:160-178 | `dotProduct` is symmetric, `dot(v, v)` is the squared `length`, which is non-negative and 0 for a null vector |
| Vectors.DistanceProperties | src/3d/3dtiles/qgsvector4d.h:194-200 | the squared `distance` is symmetric, 0 from a vector to itself, and equals `dot(a - b, a - b)` |
| Vectors.NormalizedLength | src/3d/3dtiles/qgsvector4d.h:181-191 | `normalize` keeps a vector whose length is near zero (the tolerance test on the length is the test on its square); otherwise the result has length 1 |
| Vectors.Vector4D.constructor | src/3d/3dtiles/qgsvector4d.h:34 | the default constructor gives (0, 0, 0, 0) |
| Vectors.Vector4D.FromCoordinates | src/3d/3dtiles/qgsvector4d.h:37-38 | the four-coordinate constructor stores them |
| Vectors.Vector4D.Set | src/3d/3dtiles/qgsvector4d.h:61-67 | `set` stores all four coordinates |
| Vectors.Vector4D.SetX | src/3d/3dtiles/qgsvector4d.h:70-73 | `setX` changes x and nothing else |
| Vectors.Vector4D.SetY | src/3d/3dtiles/qgsvector4d.h:76-79 | `setY` changes y and nothing else |
| Vectors.Vector4D.SetZ | src/3d/3dtiles/qgsvector4d.h:82-85 | `setZ` changes z and nothing else |
| Vectors.Vector4D.SetW | src/3d/3dtiles/qgsvector4d.h:88-91 | `setW` changes w and nothing else |
| Vectors.Vector4D.SetComponent | src/3d/3dtiles/qgsvector4d.h:93-107 | assignment through the reference `operator[]` changes exactly the indexed coordinate (x for an index out of range) |
| Vectors.Vector4D.Normalize | src/3d/3dtiles/qgsvector4d.h:181-191 | `normalize` in place: the new value is the normalised old value, unchanged when the length is near zero |
| Matrices.FromArgs | src/3d/3dtiles/qgsmatrix4x4.h:181-192 | the 16-argument constructor puts argument `m{r+1}{c+1}` at `operator()(r, c)` |
| Matrices.FromRowMajor | src/3d/3dtiles/qgsmatrix4x4.cpp:96-102 | the row-major array constructor puts `values[4 * row + col]` at `(row, col)`; the flags are General |
| Matrices.FromBlock | src/3d/3dtiles/qgsmatrix4x4.cpp:143-158 | the `(values, cols, rows)` constructor gives every cell its block value or its identity value; the flags are General |
| Matrices.RowMajor | src/3d/3dtiles/qgsmatrix4x4.cpp:1714-1719 | `copyDataTo` writes `(row, col)` at position `4 * row + col` |
| Matrices.Filled | src/3d/3dtiles/qgsmatrix4x4.h:287-306 | `fill(value)` sets all 16 entries to `value` and the flags to General |
| Matrices.WithEntry | src/3d/3dtiles/qgsmatrix4x4.h:201-206 | writing through the non-const `operator()` changes that entry only and sets the flags to General |
| Matrices.WithColumn | src/3d/3dtiles/qgsmatrix4x4.h:215-223 | `setColumn(i, v)` then `column(i)` gives `v`; the other columns are unchanged; the flags are General |
| Matrices.WithRow | src/3d/3dtiles/qgsmatrix4x4.h:231-239 | `setRow(i, v)` then `row(i)` gives `v`; the other rows are unchanged; the flags are General |
| Matrices.Mul | src/3d/3dtiles/qgsmatrix4x4.h:560-647 | `m1 * m2` is tagged with `m1.flags OR m2.flags` |
| Matrices.Times3 | src/3d/3dtiles/qgsmatrix4x4.h:676-720 | a matrix tagged Identity returns the `QgsVector3D` unchanged |
| Matrices.Transposed | src/3d/3dtiles/qgsmatrix4x4.cpp:536-549 | `transposed()` puts `(c, r)` at `(r, c)`; the flags become General exactly when the Translation bit was set, and are kept otherwise |
| Matrices.Inverted | src/3d/3dtiles/qgsmatrix4x4.cpp:347-469 | Identity gives the identity and `invertible`; Translation negates the translation column; a failed inversion gives the identity; the scale branch fails exactly on a zero diagonal entry, the affine branch on a zero 3x3 determinant, the general branch on a zero 4x4 determinant; rotations and translations are always invertible; a success keeps the flags |
| Matrices.Scaled | src/3d/3dtiles/qgsmatrix4x4.cpp:864-902 | `scale(x, y, z)` on an Identity or Translation matrix sets the diagonal to (x, y, z), and always ORs in Scale |
| Matrices.Scaled2 | src/3d/3dtiles/qgsmatrix4x4.cpp:823-854 | `scale(x, y)` on an Identity or Translation matrix sets the first two diagonal entries and keeps the third, and ORs in Scale |
| Matrices.Translated | src/3d/3dtiles/qgsmatrix4x4.cpp:1059-1099 | `translate(x, y, z)` sets column 3 to (x, y, z) on Identity, adds (x, y, z) on Translation, and always ORs in Translation |
| Matrices.Translated2 | src/3d/3dtiles/qgsmatrix4x4.cpp:1014-1049 | `translate(x, y)` sets the first two translation entries on Identity and ORs in Translation |
| Matrices.OrthoMatrix | src/3d/3dtiles/qgsmatrix4x4.cpp:1468-1490 | the projection `ortho` multiplies by is truthfully tagged Translation and Scale |
| Matrices.Ortho | src/3d/3dtiles/qgsmatrix4x4.cpp:1462-1493 | `ortho` with `left == right`, `bottom == top` or `near == far` leaves the matrix unchanged |
| Matrices.Optimize | src/3d/3dtiles/qgsmatrix4x4.cpp:2032-2088 | `optimize()` keeps the entries and leaves flags that tell the truth about them |
| Matrices.StreamRead | src/3d/3dtiles/qgsmatrix4x4.cpp:2171-2184 | `operator>>` stores the 16 values read (0 past the end of the stream) row by row, with truthful flags |
| MatrixLemmas.Swap16Twice | src/3d/3dtiles/qgsmatrix4x4.cpp:96-102 | the row/column swap behind the row-major constructor is its own inverse |
| MatrixLemmas.RowMajorRoundTrip | src/3d/3dtiles/qgsmatrix4x4.cpp:96-102 | the row-major array constructor followed by `copyDataTo` returns the same 16 values in the same order, and the other way round (also lines 1714-1719) |
| MatrixLemmas.FromArgsIsFromRowMajor | src/3d/3dtiles/qgsmatrix4x4.h:181-192 | the 16-argument constructor is the row-major array constructor with its arguments in order |
| MatrixLemmas.FromBlockCopiesBlock | src/3d/3dtiles/qgsmatrix4x4.cpp:143-158 | the `(values, cols, rows)` constructor copies the top-left `cols` by `rows` block (stored column by column) and takes every other entry from the identity |
| MatrixLemmas.FromBlockExtremes | src/3d/3dtiles/qgsmatrix4x4.cpp:143-158 | a 4x4 block is copied as is and an empty block leaves the identity |
| MatrixLemmas.TransposedTwice | src/3d/3dtiles/qgsmatrix4x4.cpp:536-549 | transposing twice gives back the entries |
| MatrixLemmas.RowMajorIsTransposedStorage | src/3d/3dtiles/qgsmatrix4x4.cpp:1714-1719 | `copyDataTo` writes exactly the storage of `transposed()` |
| MatrixLemmas.RowIsTransposedColumn | src/3d/3dtiles/qgsmatrix4x4.h:209-229 | `row(i)` is `column(i)` of the transpose |
| MatrixLemmas.StreamRoundTrip | src/3d/3dtiles/qgsmatrix4x4.cpp:2153-2184 | a stream write followed by a read restores all 16 entries |
| MatrixLemmas.SumDifferenceInverse | src/3d/3dtiles/qgsmatrix4x4.h:514-558 | `(a + b) - b == a`, `a + (-b) == a - b` and `-(-a) == a`, entry by entry (also lines 902-923) |
| MatrixLemmas.DivUndoesTimes | src/3d/3dtiles/qgsmatrix4x4.cpp:737-758 | `(a * f) / f` has the entries of `a` for a non-zero `f` |
| MatrixLemmas.EqualityIsEntrywise | src/3d/3dtiles/qgsmatrix4x4.h:474-512 | `==` holds exactly when all 16 entries agree, and `!=` is its negation |
| MatrixLemmas.IdentityIsIdentity | src/3d/3dtiles/qgsmatrix4x4.h:249-285 | `setToIdentity` gives a truthfully tagged matrix whose `isIdentity()` holds; a zero-filled matrix is not the identity |
| MatrixLemmas.IdentityFlagMeansIdentity | src/3d/3dtiles/qgsmatrix4x4.h:249-264 | a truthful matrix for which `isIdentity()` holds has the identity's entries |
| MatrixLemmas.GeneralDescribes | src/3d/3dtiles/qgsmatrix4x4.h:201-206 | a matrix tagged General is always truthfully tagged, so every mutator that resets the flags is safe |
| MatrixLemmas.ScaleTranslateShape | src/3d/3dtiles/qgsmatrix4x4.h:563-576 | a truthful matrix below Rotation2D is a scaling plus a translation |
| MatrixLemmas.ProductOfScaleTranslate | src/3d/3dtiles/qgsmatrix4x4.h:577-646 | the full product of two scale-and-translate matrices multiplies the scales and composes the translations |
| MatrixLemmas.MulIsProduct | src/3d/3dtiles/qgsmatrix4x4.h:560-647 | when both operands are truthfully tagged, `operator*`, its Translation/Scale shortcut included, computes the full row-by-column product |
| MatrixLemmas.IdentityTimes | src/3d/3dtiles/qgsmatrix4x4.h:577-646 | the identity is a left unit of the product |
| MatrixLemmas.TimesIdentity | src/3d/3dtiles/qgsmatrix4x4.h:577-646 | the identity is a right unit of the product |
| MatrixLemmas.ProductDescribes | src/3d/3dtiles/qgsmatrix4x4.h:560-647 | the product of truthfully tagged matrices is truthfully tagged by the OR of their flags |
| MatrixLemmas.MulDescribes | src/3d/3dtiles/qgsmatrix4x4.h:352-450 | `operator*` and `*=` keep the flags truthful (also lines 560-647) |
| MatrixLemmas.TransposedDescribes | src/3d/3dtiles/qgsmatrix4x4.cpp:536-549 | `transposed()` keeps the flags truthful |
| MatrixLemmas.Times4ByIdentity | src/3d/3dtiles/qgsmatrix4x4.h:748-768 | the identity times a `QgsVector4D` is the vector |
| MatrixLemmas.VecTimes4IsTransposed | src/3d/3dtiles/qgsmatrix4x4.h:726-746 | `vector * matrix` is `transposed(matrix) * vector` |
| MatrixLemmas.Times3IsHomogeneous | src/3d/3dtiles/qgsmatrix4x4.h:676-720 | on a truthful affine matrix, every shortcut of `matrix * QgsVector3D` is the homogeneous product with w = 1, whose w stays 1 |
| MatrixLemmas.MapVectorIsDirection | src/3d/3dtiles/qgsmatrix4x4.h:1008-1034 | `mapVector` is the homogeneous product with w = 0, so translation never applies |
| MatrixLemmas.DeterminantIsDet4 | src/3d/3dtiles/qgsmatrix4x4.cpp:321-333 | the flag shortcuts of `determinant()` agree with the full 4x4 expansion on a truthful matrix that has no rotation flag or has Scale or Perspective set (a pure rotation is assumed orthonormal by the source) |
| MatrixLemmas.TranslationInverseEntries | src/3d/3dtiles/qgsmatrix4x4.cpp:356-366 | the Translation branch of `inverted` negates the translation column |
| MatrixLemmas.ScaleInverseEntries | src/3d/3dtiles/qgsmatrix4x4.cpp:367-388 | the scale branch of `inverted` takes reciprocal diagonal entries and rescales the negated translation |
| MatrixLemmas.TranslationInverse | src/3d/3dtiles/qgsmatrix4x4.cpp:356-366 | the inverse of a pure translation undoes it on either side |
| MatrixLemmas.ScaleInverse | src/3d/3dtiles/qgsmatrix4x4.cpp:367-388 | the scale-branch inverse undoes the matrix on either side |
| MatrixLemmas.OrthonormalBranch | src/3d/3dtiles/qgsmatrix4x4.cpp:389-394 | rotations and translations are inverted by `orthonormalInverse()` |
| MatrixLemmas.ProductIsRowsByColumns | src/3d/3dtiles/qgsmatrix4x4.h:577-646 | each product entry is a row of the left operand dotted with a column of the right |
| MatrixLemmas.RigidInverse | src/3d/3dtiles/qgsmatrix4x4.cpp:1982-2010 | for orthonormal rotation columns and an affine last row, `orthonormalInverse()` times the matrix is the identity |
| MatrixLemmas.OrthonormalInverseIsInverse | src/3d/3dtiles/qgsmatrix4x4.cpp:389-394 | `inverted` of a truthful rotation-and-translation matrix with orthonormal columns succeeds and undoes the matrix (also lines 1982-2010) |
| MatrixLemmas.FlagLadder | src/3d/3dtiles/qgsmatrix4x4.h:560-647 | the zero patterns a truthful tag promises, flag level by flag level |
| MatrixLemmas.ProductWithScale | src/3d/3dtiles/qgsmatrix4x4.cpp:864-902 | right multiplication by a scaling matrix multiplies the first three columns |
| MatrixLemmas.ScaledIsProduct | src/3d/3dtiles/qgsmatrix4x4.cpp:864-902 | on a truthful matrix every branch of `scale(x, y, z)` is right multiplication by the scaling matrix |
| MatrixLemmas.ScaledDescribes | src/3d/3dtiles/qgsmatrix4x4.cpp:864-902 | `scale` keeps the flags truthful |
| MatrixLemmas.Scaled2IsScaled | src/3d/3dtiles/qgsmatrix4x4.cpp:823-854 | `scale(x, y)` is `scale(x, y, 1)` |
| MatrixLemmas.ProductWithTranslation | src/3d/3dtiles/qgsmatrix4x4.cpp:1059-1099 | right multiplication by a translation matrix adds the combination of the first three columns to the fourth |
| MatrixLemmas.TranslatedIsProduct | src/3d/3dtiles/qgsmatrix4x4.cpp:1059-1099 | on a truthful matrix every branch of `translate(x, y, z)` is right multiplication by the translation matrix |
| MatrixLemmas.TranslatedDescribes | src/3d/3dtiles/qgsmatrix4x4.cpp:1059-1099 | `translate` keeps the flags truthful |
| MatrixLemmas.Translated2IsTranslated | src/3d/3dtiles/qgsmatrix4x4.cpp:1014-1049 | `translate(x, y)` is `translate(x, y, 0)` |
| MatrixLemmas.OrthoDescribes | src/3d/3dtiles/qgsmatrix4x4.cpp:1462-1493 | `ortho` keeps the flags truthful |
| MatrixLemmas.OptimizeFindsIdentity | src/3d/3dtiles/qgsmatrix4x4.cpp:2032-2088 | `optimize()` tags a matrix Identity exactly when its entries are the identity's |
| MatrixObject.Matrix4x4.constructor | src/3d/3dtiles/qgsmatrix4x4.h:266-285 | the default constructor is the identity, truthfully tagged |
| MatrixObject.Matrix4x4.FromElements | src/3d/3dtiles/qgsmatrix4x4.h:181-192 | the 16-argument constructor stores `FromArgs` of its arguments |
| MatrixObject.Matrix4x4.FromValues | src/3d/3dtiles/qgsmatrix4x4.cpp:96-102 | the row-major array constructor, by its nested index loops, stores `FromRowMajor` of the first 16 values |
| MatrixObject.Matrix4x4.FromBlock | src/3d/3dtiles/qgsmatrix4x4.cpp:143-158 | the `(values, cols, rows)` constructor, by its loops, stores `FromBlock` |
| MatrixObject.Matrix4x4.CopyDataTo | src/3d/3dtiles/qgsmatrix4x4.cpp:1714-1719 | `copyDataTo` writes the entries row by row into the first 16 cells and nothing else |
| MatrixObject.Matrix4x4.Transposed | src/3d/3dtiles/qgsmatrix4x4.cpp:536-549 | `transposed()` returns a fresh truthful matrix holding the transpose |
| MatrixObject.Matrix4x4.SetEntry | src/3d/3dtiles/qgsmatrix4x4.h:201-206 | writing through `operator()` stores that entry and sets General, keeping the object valid |
| MatrixObject.Matrix4x4.Data | src/3d/3dtiles/qgsmatrix4x4.h:1047-1053 | `data()` hands out the storage and sets the flags to General |
| MatrixObject.Matrix4x4.SetColumn | src/3d/3dtiles/qgsmatrix4x4.h:215-223 | `setColumn` stores the column and sets General |
| MatrixObject.Matrix4x4.SetRow | src/3d/3dtiles/qgsmatrix4x4.h:231-239 | `setRow` stores the row and sets General |
| MatrixObject.Matrix4x4.SetToIdentity | src/3d/3dtiles/qgsmatrix4x4.h:266-285 | `setToIdentity` stores the identity tagged Identity |
| MatrixObject.Matrix4x4.Fill | src/3d/3dtiles/qgsmatrix4x4.h:287-306 | `fill` stores 16 copies of the value tagged General |
| MatrixObject.Matrix4x4.AddAssign | src/3d/3dtiles/qgsmatrix4x4.h:308-328 | `+=` stores the entrywise sum (also when the operand is the object itself) and sets General |
| MatrixObject.Matrix4x4.SubAssign | src/3d/3dtiles/qgsmatrix4x4.h:330-350 | `-=` stores the entrywise difference and sets General |
| MatrixObject.Matrix4x4.MulAssignScalar | src/3d/3dtiles/qgsmatrix4x4.h:452-472 | `*= factor` scales every entry and sets General |
| MatrixObject.Matrix4x4.DivAssign | src/3d/3dtiles/qgsmatrix4x4.cpp:581-601 | `/= divisor` divides every entry and sets General |
| MatrixObject.Matrix4x4.MulAssign | src/3d/3dtiles/qgsmatrix4x4.h:352-450 | `*=` stores the same matrix as `operator*` (flags OR-ed), also when the operand is the object itself, and keeps the flags truthful |
| MatrixObject.Matrix4x4.MulShortcut | src/3d/3dtiles/qgsmatrix4x4.h:355-368 | the Translation/Scale shortcut of `*=` stores the shortcut product |
| MatrixObject.Matrix4x4.MulGeneral | src/3d/3dtiles/qgsmatrix4x4.h:369-446 | the general path of `*=` stores the full product, row by row |
| MatrixObject.Matrix4x4.Scale | src/3d/3dtiles/qgsmatrix4x4.cpp:864-902 | `scale(x, y, z)` in place stores `Scaled` of the old value |
| MatrixObject.Matrix4x4.ScaleUniform | src/3d/3dtiles/qgsmatrix4x4.cpp:912-950 | `scale(factor)` is `scale(factor, factor, factor)` |
| MatrixObject.Matrix4x4.ScaleBy | src/3d/3dtiles/qgsmatrix4x4.cpp:770-811 | `scale(QgsVector3D)` is `scale` with the vector's components |
| MatrixObject.Matrix4x4.Scale2 | src/3d/3dtiles/qgsmatrix4x4.cpp:823-854 | `scale(x, y)` in place stores `Scaled2` of the old value |
| MatrixObject.Matrix4x4.Translate | src/3d/3dtiles/qgsmatrix4x4.cpp:1059-1099 | `translate(x, y, z)` in place stores `Translated` of the old value |
| MatrixObject.Matrix4x4.TranslateBy | src/3d/3dtiles/qgsmatrix4x4.cpp:960-1003 | `translate(QgsVector3D)` is `translate` with the vector's components |
| MatrixObject.Matrix4x4.Translate2 | src/3d/3dtiles/qgsmatrix4x4.cpp:1014-1049 | `translate(x, y)` in place stores `Translated2` of the old value |
| MatrixObject.Matrix4x4.Ortho | src/3d/3dtiles/qgsmatrix4x4.cpp:1462-1493 | `ortho` in place stores `Ortho` of the old value: unchanged for a zero-sized volume, otherwise the product with the projection |
| MatrixObject.Matrix4x4.OrthoProjection | src/3d/3dtiles/qgsmatrix4x4.cpp:1468-1490 | the temporary projection `ortho` builds, tagged Translation and Scale |
| MatrixObject.Matrix4x4.Optimize | src/3d/3dtiles/qgsmatrix4x4.cpp:2032-2088 | `optimize()` in place keeps the entries and recomputes truthful flags |
| MatrixObject.Matrix4x4.ReadFrom | src/3d/3dtiles/qgsmatrix4x4.cpp:2171-2184 | `operator>>` stores the values read row by row, then optimises |
| MatrixObject.Matrix4x4.ReadEntries | src/3d/3dtiles/qgsmatrix4x4.cpp:2173-2181 | the read loops store the row-major matrix of the stream values |
| MatrixObject.Matrix4x4.WriteTo | src/3d/3dtiles/qgsmatrix4x4.cpp:2153-2159 | `operator<<` writes the entries row by row |
| TilesGeometry.TransformFromJsonIsColumnMajor | src/3d/3dtiles/3dtiles.cpp:106-120 | `buildFromJson` reads the `transform` array in column-major order: entry (row, col) is element `4 * col + row`, and elements 12 to 14 are the translation |
| TilesGeometry.BuildFromJson | src/3d/3dtiles/3dtiles.cpp:106-120 | the nested loops with their four `setColumn` calls leave the matrix holding the column-major reading of the array, tagged General |
| TilesGeometry.Cube | src/3d/3dtiles/3dtiles.cpp:172-183 | `Q3dCube(ll, ur)` has eight homogeneous corners (w = 1), corner 0 is `ll`, corner 6 is `ur`, and each coordinate of each corner comes from `ll` or `ur` in the source's order |
| TilesGeometry.CubeCornersDistinct | src/3d/3dtiles/3dtiles.cpp:172-183 | a cube of positive extent has eight distinct corners |
| TilesGeometry.DefaultCube | src/3d/3dtiles/3dtiles.cpp:165-170 | the default `Q3dCube()` holds two copies of the origin |
| TilesGeometry.TransformPrimitive | src/3d/3dtiles/3dtiles.cpp:148-159 | `matrix * primitive` keeps the point count and maps point `i` to `matrix * point[i]` |
| TilesGeometry.Times4Composes | src/3d/3dtiles/3dtiles.cpp:329-346 | the matrix-vector product composes, `(a * b) * v == a * (b * v)`, which is what `transform * rotMat * cube` relies on |
| TilesGeometry.MappedComposes | src/3d/3dtiles/3dtiles.cpp:148-159 | mapping a primitive by `a * b` is mapping by `b` then by `a` when both matrices are truthfully tagged (also lines 329-346) |
| TilesGeometry.Outline | src/3d/3dtiles/3dtiles.cpp:185-209 | `asQgsPoints` turns eight corners into a path of 16 points and passes any other number of points through |
| TilesGeometry.OutlineDrawsEveryEdge | src/3d/3dtiles/3dtiles.cpp:185-209 | the 16-point path runs along every one of the twelve edges of the cube |
| TilesGeometry.AsQgsPoints | src/3d/3dtiles/3dtiles.cpp:185-209 | the loops of `asQgsPoints` produce the outline of the corners' x, y, z |
| TilesGeometry.BoundingVolumeRoundTrip | src/3d/3dtiles/3dtiles.cpp:295-312 | the Box, Sphere and Region constructors read back the 12, 4 and 6 numbers of the 3D Tiles array layout, and writing a volume in that layout and reading it gives the volume back (also lines 354-361, lines 400-412) |
| TilesGeometry.RegionCorners | src/3d/3dtiles/3dtiles.cpp:400-412 | a region's lower corner is (west, south, minimum height) from elements 0, 1, 4 and its upper corner (east, north, maximum height) from 2, 3, 5 |
| TilesGeometry.RotationTranslation | src/3d/3dtiles/3dtiles.cpp:321-327 | `fromRotationTranslation` puts the half axes U, V, W in columns 0 to 2 and the centre in column 3 |
| TilesGeometry.RotationTranslationMaps | src/3d/3dtiles/3dtiles.cpp:321-327 | the box matrix sends `(x, y, z, w)` to `x U + y V + z W + w centre`, keeping w |
| TilesGeometry.Reprojected | src/3d/3dtiles/3dtiles.cpp:132-146 | `reproject` keeps the number of points |
| TilesGeometry.AsCube | src/3d/3dtiles/3dtiles.cpp:259-270 | `asCube` fails exactly when a coordinate transform is given whose source CRS is not the volume's (the throw in `checkCoordinateTransform`), and otherwise yields eight corners (also lines 329-346, lines 370-383, lines 414-426) |
| TilesGeometry.SphereCubeAroundCenter | src/3d/3dtiles/3dtiles.cpp:370-383 | under the identity transform a sphere's cube spans `centre - radius` to `centre + radius` |
| TilesGeometry.BoxCubeCorners | src/3d/3dtiles/3dtiles.cpp:329-346 | under the identity transform a box's cube spans `centre - (U + V + W)` to `centre + (U + V + W)` |
| TilesGeometry.IdentityMulGeneral | src/3d/3dtiles/qgsmatrix4x4.h:560-647 | the identity times a General matrix is that matrix, flags included |
| TilesGeometry.AsAabb | src/3d/3dtiles/3dtiles.cpp:279-291 | `asQgsAABB` fails exactly when `asCube` does; otherwise its box has every minimum at most the maximum and, without the y/z flip, holds the cube's `ll()` and `ur()` corners |
| TilesGeometry.CornersBox | src/3d/3dtiles/3dtiles.cpp:289-290 | the `QgsAABB` built from the `ll()` and `ur()` coordinates is put in order on each axis, and its two bounds on each axis are the two corners' coordinates on that axis |
| TilesGeometry.CornersBoxSpans | src/3d/3dtiles/3dtiles.cpp:289-290 | a point lies in that box exactly when each of its coordinates lies between the two corners' coordinates, in either order; both corners lie in it |
| TilesGeometry.RegionBoxContainsCenter | src/3d/3dtiles/3dtiles.cpp:279-293 | for a well-ordered region under the identity, the `contains` test accepts both corners and the centre of its box (also lines 586-592) |
| TilesGeometry.Truncate | src/3d/3dtiles/3dtiles.cpp:790-800 | the conversion of a double to an `int` coordinate truncates toward zero |
| TilesGeometry.EncodeTileId | src/3d/3dtiles/3dtiles.cpp:790-800 | an id exists exactly when each centre offset, in thousandths, converts to a 32-bit `int` (strictly between -2^31 - 1 and 2^31), the conversion being undefined otherwise; the id keeps the level |
| TilesGeometry.DecodeEncodeNearCenter | src/3d/3dtiles/3dtiles.cpp:790-810 | whenever `encodeTileId(level, box)` is defined, decoding it gives a point within a thousandth of the box centre on every axis |
| TilesGeometry.FarTileHasNoId | src/3d/3dtiles/3dtiles.cpp:790-800 | a tile 6 350 km from the root centre, as in a global geocentric tileset, has an offset beyond the range of `int`, so it gets no id |
| TilesGeometry.EncodeDecodeRoundTrip | src/3d/3dtiles/3dtiles.cpp:790-810 | a tile centred exactly where an id points encodes back to that id |
| Tiles3D.Refine | src/3d/3dtiles/3dtiles.cpp:481-492 | a tile refines by ADD exactly when its "refine" value is "add" in any letter case, and by REPLACE otherwise or when the key is absent |
| Tiles3D.RefineAsWritten | src/3d/3dtiles/3dtiles.cpp:481-492 | as written, a missing key gives REPLACE and every present value gives the opposite of what the 3D Tiles standard asks |
| Tiles3D.RefineAsWrittenIsInverted | src/3d/3dtiles/3dtiles.cpp:481-492 | as written, every present "refine" value is read the wrong way round: "add" gives REPLACE and "REPLACE" gives ADD |
| Tiles3D.RefineIgnoresCase | src/3d/3dtiles/3dtiles.cpp:481-492 | the comparison ignores case, and a missing key keeps REPLACE |
| Tiles3D.ParseBoundingVolume | src/3d/3dtiles/3dtiles.cpp:448-465 | "box" wins over "region", which wins over "sphere"; a bounding volume with none of them throws |
| Tiles3D.ContentUrl | src/3d/3dtiles/3dtiles.cpp:595-613 | `setContentFrom` takes "uri" over "url" and throws when both are missing; a tile without content has an empty URL |
| Tiles3D.ParseTile | src/3d/3dtiles/3dtiles.cpp:444-503 | the tile constructor throws exactly when the bounding volume or the content URL does; otherwise it records the tileset, parent, depth, volume, URL, refinement and error, reads the transform (identity when absent), keeps the children as JSON unless the content is a `.json` tileset, and loads nothing yet |
| Tiles3D.NewTileset | src/3d/3dtiles/3dtiles.cpp:658-677 | a new tileset has name "no_name", every option off, no root box, the error from the JSON (0 when absent), and a root tile exactly when the root JSON parses (a throw is caught and leaves a null root) |
| Tiles3D.TilesetOf | src/3d/3dtiles/3dtiles.cpp:444-446 | a tile's `mParentTileset` is a tileset created before it |
| Tiles3D.ParentTileOf | src/3d/3dtiles/3dtiles.cpp:444-446 | a tile's `mParentTile` is a tile created before it |
| Tiles3D.CombinedTagged | src/3d/3dtiles/3dtiles.cpp:524-555 | every combined transform is the identity or a General matrix |
| Tiles3D.TilesetTagged | src/3d/3dtiles/3dtiles.cpp:543-555 | a tileset's transform, its holding tile's combined transform or the identity, is the identity or a General matrix |
| Tiles3D.MulTagged | src/3d/3dtiles/3dtiles.cpp:524-541 | a product of such matrices is such a matrix, and the identity on the left changes nothing |
| Tiles3D.TaggedDescribes | src/3d/3dtiles/3dtiles.cpp:524-555 | such a matrix is truthfully tagged, so `operator*` on it computes the full product |
| Tiles3D.CombinedTransformComposes | src/3d/3dtiles/3dtiles.cpp:524-541 | a child tile's combined transform maps a point by the tile's own transform followed by its parent's combined transform |
| Tiles3D.RootTileCombinedTransform | src/3d/3dtiles/3dtiles.cpp:524-555 | the root tile of a top-level tileset has its own transform as combined transform |
| Tiles3D.CombinedAgree | src/3d/3dtiles/3dtiles.cpp:524-541 | combined transforms do not change when the tree grows or options change |
| Tiles3D.TilesetAgree | src/3d/3dtiles/3dtiles.cpp:543-555 | nor do tileset transforms |
| Tiles3D.RootTilesetAgree | src/3d/3dtiles/3dtiles.cpp:828-836 | nor does the root tileset of a tileset |
| Tiles3D.CachesAgreeCarry | src/3d/3dtiles/3dtiles.cpp:557-564 | cached combined transforms stay correct in a grown tree |
| Tiles3D.RootTileset | src/3d/3dtiles/3dtiles.cpp:828-836 | `getRootTileset` ends at a tileset without a parent tile, at or above the one asked, and a top-level tileset is its own root |
| Tiles3D.SetterSeenThroughRoot | src/3d/3dtiles/3dtiles.cpp:838-888 | after a setter on one tileset, every getter answers from the new value exactly when that tileset is the root of the one asked; a setter on a nested tileset is never seen |
| Tiles3D.ScaledGeometricError | src/3d/3dtiles/3dtiles.cpp:566-572 | the error is divided by the square of the depth unless the original error is asked for or the depth is not positive, and a non-negative error never grows (also lines 820-826) |
| Tiles3D.TileGeometricError | src/3d/3dtiles/3dtiles.cpp:466-469 | a tile has an error exactly when its JSON gave "geometricError" (also lines 566-572) |
| Tiles3D.GeometricErrorShrinksWithDepth | src/3d/3dtiles/3dtiles.cpp:566-572 | for the same JSON error, a deeper tile gets a smaller or equal error |
| Tiles3D.SmallerQuotient | src/3d/3dtiles/3dtiles.cpp:566-572 | of two non-negative quotients of one value, the one with the larger divisor is the smaller |
| Tiles3D.FoundTile | src/3d/3dtiles/3dtiles.cpp:711-727 | over the tree as it stands, `findTile` gives null for a negative level, the root tile for level 0, and otherwise only ever a tile of the tree |
| Tiles3D.FoundInTileset | src/3d/3dtiles/3dtiles.cpp:770-788 | at the tileset's own depth the answer is its root tile; any tile found lies below the tileset |
| Tiles3D.FoundInTile | src/3d/3dtiles/3dtiles.cpp:729-768 | at the tile's own depth, or at a childless b3dm tile, the answer is the tile itself; any tile found lies at or below it |
| Tiles3D.FirstContaining | src/3d/3dtiles/3dtiles.cpp:751-761 | the children scan finds nothing when no child is left, and any tile found lies below the tile |
| Tiles3D.FirstContainingPicksFirst | src/3d/3dtiles/3dtiles.cpp:751-761 | the scan descends into the first child that contains the point and skips the ones before it |
| Tiles3D.FirstContainingNone | src/3d/3dtiles/3dtiles.cpp:751-761 | when no child contains the point, the search finds nothing |
| Tiles3D.ParsedPrefix | src/3d/3dtiles/3dtiles.cpp:510-522 | `children()` appends the children parsed in order up to the first one that throws |
| Tiles3D.ParsedPrefixIs | src/3d/3dtiles/3dtiles.cpp:510-522 | that prefix is determined by where the first failure is |
| Tiles3D.ChildrenPrefixIs | src/3d/3dtiles/3dtiles.cpp:510-522 | the same, for the children JSON of a tile in the tree |
| Tiles3D.AppendChildren | src/3d/3dtiles/3dtiles.cpp:514-517 | appending children puts the new tiles at the end of the tree, gives them to `t` in order, and changes no other node |
| Tiles3D.AppendChildrenSnoc | src/3d/3dtiles/3dtiles.cpp:514-517 | appending one more child is one more append step |
| Tiles3D.AppendChildKeepsValid | src/3d/3dtiles/3dtiles.cpp:514-517 | appending a freshly parsed child keeps the tree well linked and its caches correct |
| Tiles3D.ChildrenStep | src/3d/3dtiles/3dtiles.cpp:514-517 | one iteration of the children loop keeps the tree valid |
| Tiles3D.ParseChildStep | src/3d/3dtiles/3dtiles.cpp:514-517 | one iteration of the children loop, where the next child parses, extends the parsed prefix |
| Tiles3D.ContentParentAsWritten | src/3d/3dtiles/3dtiles.cpp:628-629 | as written, the nested tileset is given the holding tile's own parent, an earlier tile or none, never the holding tile |
| Tiles3D.ContentParent | src/3d/3dtiles/3dtiles.cpp:628-629 | the corrected parent is a tile of the tree and always differs from the one the code passes |
| Tiles3D.ContentParentAsWrittenDetaches | src/3d/3dtiles/3dtiles.cpp:620-630 | as written, a `.json` content under the root tile of a top-level tileset becomes a top-level tileset itself: it sees none of the holding tile's transform and keeps its own options |
| Tiles3D.ContentParentInherits | src/3d/3dtiles/3dtiles.cpp:543-555 | with the holding tile as parent, the nested tileset continues that tile's combined transform and shares the top tileset's options (also lines 620-630) |
| Tiles3D.NewTilesetKeepsValid | src/3d/3dtiles/3dtiles.cpp:658-677 | appending a new tileset, held by a tile or not, keeps the tree valid |
| Tiles3D.SetContentKeepsValid | src/3d/3dtiles/3dtiles.cpp:620-656 | setting a tile's content to a nested tileset placed after it keeps the tree valid |
| Tiles3D.TileAabb | src/3d/3dtiles/3dtiles.cpp:580-584 | a tile's box under its combined transform is in order on every axis |
| Tiles3D.ChildrenExtend | src/3d/3dtiles/3dtiles.cpp:510-519 | building a tile's children, completely or up to a throw, keeps every node's place, volume, depth, URL, built children and loaded content |
| Tiles3D.TileAabbExtends | src/3d/3dtiles/3dtiles.cpp:585-591 | a tile's box, and so its `contains` answer for every point, does not change when children are built or contents loaded |
| Tiles3D.ContentAgrees | src/3d/3dtiles/3dtiles.cpp:741-754 | once a childless tile's content is loaded, the search there is the tile itself for a model and the search in the nested tileset one level deeper for a tileset, in every later state of the tree |
| Tiles3D.ScanAgrees | src/3d/3dtiles/3dtiles.cpp:755-764 | once the first children were found not to contain the point, the scan in any later state of the tree descends into the next child that contains it, or finds nothing when none is left |
| Tiles3D.CacheDirectory | src/3d/3dtiles/3dtiles.cpp:925-928 | the cache directory is the cache root, the tileset name, a slash, the file name and a trailing slash |
| Tiles3D.CacheDirectoryInjective | src/3d/3dtiles/3dtiles.cpp:925-928 | tileset names without a slash give distinct directories to distinct (tileset, file) pairs |
| Tiles3D.FlagUpdateKeepsValid | src/3d/3dtiles/3dtiles.cpp:838-888 | changing a node's options or cache, and nothing a walk reads, keeps the tree valid |
| Tiles3D.TileStore.constructor | src/3d/3dtiles/3dtiles.cpp:658-677 | a top-level tileset has depth 0 and no holding tile, and the tree it starts is valid |
| Tiles3D.TileStore.Children | src/3d/3dtiles/3dtiles.cpp:510-522 | `children()` builds the children from JSON on the first call only and then answers from the list; a throw leaves the children appended so far |
| Tiles3D.TileStore.ParseChildren | src/3d/3dtiles/3dtiles.cpp:514-517 | the loop appends the parsed prefix and reports a failure exactly when a child threw |
| Tiles3D.TileStore.GetCombinedTransform | src/3d/3dtiles/3dtiles.cpp:557-564 | `getCombinedTransform` returns the composed transform and caches it, changing nothing else |
| Tiles3D.TileStore.GetRootTileset | src/3d/3dtiles/3dtiles.cpp:828-836 | the loop of `getRootTileset` returns the root tileset |
| Tiles3D.TileStore.SetName | src/3d/3dtiles/3dtiles.cpp:838-841 | `setName` changes that tileset's name only |
| Tiles3D.TileStore.SetFlipY | src/3d/3dtiles/3dtiles.cpp:849-852 | `setFlipY` changes that tileset's flag only |
| Tiles3D.TileStore.SetCorrectTranslation | src/3d/3dtiles/3dtiles.cpp:860-863 | `setCorrectTranslation` changes that tileset's flag only |
| Tiles3D.TileStore.SetUseFakeMaterial | src/3d/3dtiles/3dtiles.cpp:870-873 | `setUseFakeMaterial` changes that tileset's flag only |
| Tiles3D.TileStore.SetUseOriginalGeomError | src/3d/3dtiles/3dtiles.cpp:880-883 | `setUseOriginalGeomError` changes that tileset's flag only |
| Tiles3D.TileStore.BoundingVolumeAsAabb | src/3d/3dtiles/3dtiles.cpp:580-584 | `getBoundingVolumeAsAABB(NULL)` returns the tile's box and caches the combined transform, changing nothing else |
| Tiles3D.TileStore.ContainsPoint | src/3d/3dtiles/3dtiles.cpp:585-591 | `contains` answers whether the point lies in the tile's box, borders included, and caches the combined transform, changing nothing else |
| Tiles3D.TileStore.FindTile | src/3d/3dtiles/3dtiles.cpp:711-727 | `findTile` gives null for a negative level and the root tile for level 0 without touching the tree; otherwise it builds root box, children and contents as it goes, and any answer it gives is the one the search over the tree it leaves gives; it fails only where that search fails or when it runs out of fuel, which needs the fuel to be smaller than the number of nodes after the starting one in the store it leaves, so with fuel at least the size of that store it succeeds exactly when the search does |
| Tiles3D.TileStore.FindInTileset | src/3d/3dtiles/3dtiles.cpp:770-788 | `findTileRecInTileset` answers the root tile at the tileset's depth, and otherwise searches under the root when the root contains the point; its successful answer is the search over the tree it leaves; it fails only where that search fails or when it runs out of fuel, which needs the fuel to be smaller than the number of nodes after the starting one in the store it leaves |
| Tiles3D.TileStore.FindInTile | src/3d/3dtiles/3dtiles.cpp:729-768 | `findTileRecInTile` answers the tile at its own depth, and otherwise builds the children first; its successful answer is the search over the tree it leaves; it fails only where that search fails or when it runs out of fuel, which needs the fuel to be smaller than the number of nodes after the starting one in the store it leaves |
| Tiles3D.TileStore.FindInContent | src/3d/3dtiles/3dtiles.cpp:739-752 | at a childless tile the content is loaded and the search goes on in a nested tileset or stops at a model; its successful answer is the search over the tree it leaves; it fails only where that search fails or when it runs out of fuel, which needs the fuel to be smaller than the number of nodes after the starting one in the store it leaves |
| Tiles3D.TileStore.FindInChildren | src/3d/3dtiles/3dtiles.cpp:755-764 | the scan checks the children in order with `contains` and descends into the first that contains the point; its successful answer is the search over the tree it leaves; it fails only where that search fails or when it runs out of fuel, which needs the fuel to be smaller than the number of nodes after the starting one in the store it leaves |
| Tiles3D.TileStore.BuildRootBb | src/3d/3dtiles/3dtiles.cpp:812-818 | `buildRootBb` computes the root tile's box once and keeps it afterwards |
| Tiles3D.TileStore.EncodeTileId | src/3d/3dtiles/3dtiles.cpp:790-800 | `encodeTileId` builds the root box, then encodes the box against it, failing where an offset does not fit in an `int` |
| Tiles3D.TileStore.DecodeTileId | src/3d/3dtiles/3dtiles.cpp:802-810 | `decodeTileId` builds the root box, then decodes the id against it |
| Tiles3D.TileStore.GetContent | src/3d/3dtiles/3dtiles.cpp:620-656 | a loaded content is returned as is; a `.json` URL becomes a nested tileset one level deeper, or throws when the download fails; a `.b3dm` URL becomes a model or stays null when reading it throws; any other URL throws (also lines 687-709) |
| B3dmReader.LittleEndian | src/3d/3dtiles/b3dm.h:61-69 | the value of `n` little-endian bytes is below `256^n` |
| B3dmReader.U32At | src/3d/3dtiles/b3dm.h:61-69 | an `unsigned int` field of the header holds a value below 2^32 |
| B3dmReader.LittleEndianRoundTrip | src/3d/3dtiles/b3dm.h:61-69 | writing a value below `256^n` as `n` little-endian bytes and reading them back gives the value |
| B3dmReader.U32RoundTrip | src/3d/3dtiles/b3dm.h:61-69 | a 32-bit field read back from its four bytes is the value |
| B3dmReader.DecodeHeader | src/3d/3dtiles/b3dm.cpp:7 | the 28 bytes read into the `Header` struct give its magic (the first four bytes) and six 32-bit fields |
| B3dmReader.HeaderRoundTrip | src/3d/3dtiles/b3dm.h:61-69 | decoding the bytes of a header gives the header back |
| B3dmReader.Int32 | src/3d/3dtiles/b3dm.cpp:14-36 | the `(int)` cast of a length keeps values below 2^31 and turns larger ones negative |
| B3dmReader.ReadCount | src/3d/3dtiles/b3dm.cpp:46-49 | the glTF byte count, computed in unsigned arithmetic and passed to `read(qint64)`, is the true difference whenever that fits in 64 bits, negative ones included |
| B3dmReader.GltfLength | src/3d/3dtiles/b3dm.cpp:46-49 | the glTF length the b3dm layout gives: `byteLength` less the 28-byte header and all four table sections |
| B3dmReader.ToInt | src/3d/3dtiles/b3dm.cpp:93-111 | `toInt()` returns an `int`, the number itself when it is an integer in range |
| B3dmReader.ToUint | src/3d/3dtiles/b3dm.cpp:93-107 | `(uint)` of an `int` keeps a non-negative value and adds 2^32 to a negative one |
| B3dmReader.RtcFromArray | src/3d/3dtiles/b3dm.cpp:84-86 | an RTC_CENTER array gives the centre from its first three numbers, in order |
| B3dmReader.TakeAt | src/3d/3dtiles/b3dm.cpp:86 | `takeAt(i)` gives element `i` as a number and the array without it, its other elements in order; out of range it gives 0 and leaves the array unchanged |
| B3dmReader.RtcTakenLeftToRight | src/3d/3dtiles/b3dm.cpp:86 | whatever the evaluation order, the first coordinate read is the array's first number (0 for an empty array) |
| B3dmReader.RtcTakenRightToLeft | src/3d/3dtiles/b3dm.cpp:86 | evaluated right to left, the third coordinate is the array's third number, or 0 when the array is shorter |
| B3dmReader.RtcDependsOnEvaluationOrder | src/3d/3dtiles/b3dm.cpp:86 | with its `takeAt(0)`, `takeAt(1)`, `takeAt(2)` arguments evaluated right to left the centre is the intended one for every array; left to right, 5 or more numbers give elements 0, 2 and 4, 3 or 4 numbers give elements 0 and 2 and then 0, 1 or 2 numbers give element 0 and then zeros, so the centre is wrong whenever the second and third numbers differ |
| B3dmReader.GltfLengthAsWritten | src/3d/3dtiles/b3dm.cpp:46-49 | as written, the count read for the glTF is the layout's glTF length plus the batch-table binary length less the feature-table binary length |
| B3dmReader.FloatsAt | src/3d/3dtiles/b3dm.cpp:93-95 | the binary RTC_CENTER is three consecutive 32-bit floats at the offset, and reading them needs 12 bytes there |
| B3dmReader.ParseFeatureTable | src/3d/3dtiles/b3dm.cpp:79-114 | an RTC_CENTER array gives the centre from its first three numbers in order, and a JSON with neither RTC_CENTER nor BATCH_LENGTH gives the default table |
| B3dmReader.FeatureTableOf | src/3d/3dtiles/b3dm.cpp:17-25 | the feature-table step parses the JSON bytes and builds `FeatureTable(obj, binary)` from them |
| B3dmReader.ParseFeatureTableCases | src/3d/3dtiles/b3dm.cpp:79-114 | without RTC_CENTER and BATCH_LENGTH the table is the default one; a binary reference into an empty binary throws; BATCH_LENGTH comes from the binary when it is an object and from `toInt()` otherwise |
| B3dmReader.ReadBytes | src/3d/3dtiles/b3dm.cpp:13-46 | `read(n)` returns the next `min(n, remaining)` bytes, and none for a negative count |
| B3dmReader.HeaderRead | src/3d/3dtiles/b3dm.cpp:7 | the header read returns 28 bytes: the bytes read, then what the struct held before when the device ran short |
| B3dmReader.LoadBytes | src/3d/3dtiles/b3dm.cpp:6-69 | `load` only moves the cursor forward; a success closes the device, and an open device means it threw |
| B3dmReader.LoadBytesAfterMagic | src/3d/3dtiles/b3dm.cpp:7-12 | past a matching magic, `load` continues with the feature table at the cursor after the header |
| B3dmReader.LoadBytesBadMagic | src/3d/3dtiles/b3dm.cpp:7-10 | a magic other than "b3dm" throws right after the header, with the device left open |
| B3dmReader.AfterHeader | src/3d/3dtiles/b3dm.cpp:12-69 | the rest of `load` after the header keeps the header, only moves forward, and closes the device when it succeeds |
| B3dmReader.AfterFeatureTable | src/3d/3dtiles/b3dm.cpp:28-69 | the same after the feature table |
| B3dmReader.AfterHeaderStops | src/3d/3dtiles/b3dm.cpp:12-26 | a feature-table throw ends `load` |
| B3dmReader.AfterHeaderGoesOn | src/3d/3dtiles/b3dm.cpp:12-28 | a read feature table hands its fields and cursor on to the batch-table step |
| B3dmReader.AfterFeatureTableStops | src/3d/3dtiles/b3dm.cpp:28-41 | a batch-table throw ends `load` |
| B3dmReader.AfterFeatureTableReads | src/3d/3dtiles/b3dm.cpp:28-68 | after the batch table `load` reads the glTF bytes and closes the device |
| B3dmReader.FeatureTableStep | src/3d/3dtiles/b3dm.cpp:12-26 | nothing is read when the feature-table JSON length is 0; otherwise the step only moves forward and changes no batch-table state |
| B3dmReader.BatchTableStep | src/3d/3dtiles/b3dm.cpp:28-41 | the batch table is read only when its JSON length and the batch length are both positive |
| B3dmReader.ShortFeatureTableFails | src/3d/3dtiles/b3dm.cpp:12-16 | a feature-table JSON shorter than its header length makes `load` throw |
| B3dmReader.BadMagicFails | src/3d/3dtiles/b3dm.cpp:7-10 | any other first four bytes make `load` throw with nothing but the header read |
| B3dmReader.FileHeader | src/3d/3dtiles/b3dm.h:61-69 | the header of a laid-out file is well formed |
| B3dmReader.FileHeaderSection | src/3d/3dtiles/b3dm.h:61-69 | a laid-out file starts with the bytes of its header |
| B3dmReader.FileFeatureSections | src/3d/3dtiles/b3dm.cpp:12-26 | the feature-table JSON and binary follow the header |
| B3dmReader.FileBatchSections | src/3d/3dtiles/b3dm.cpp:28-41 | the batch-table JSON and binary follow the feature table |
| B3dmReader.FileGltfSection | src/3d/3dtiles/b3dm.cpp:46-49 | the glTF is everything after the tables |
| B3dmReader.FeatureTableStepReads | src/3d/3dtiles/b3dm.cpp:12-26 | a feature table whose two sections are present is parsed, and the cursor passes both |
| B3dmReader.BatchTableStepReads | src/3d/3dtiles/b3dm.cpp:28-41 | a batch table announced by the feature table is read, and the cursor passes both sections |
| B3dmReader.LoadSteps | src/3d/3dtiles/b3dm.cpp:6-69 | `load` is the composition of its header, feature-table, batch-table and glTF steps |
| B3dmReader.FileHeaderStep | src/3d/3dtiles/b3dm.cpp:7 | a file's header is read whole and decodes to the header it was built from |
| B3dmReader.LoadLaidOut | src/3d/3dtiles/b3dm.cpp:6-69 | on bytes laid out as header, tables and glTF, `load` parses the feature table, reads the batch table and returns the first glTF-length bytes of the glTF, closing the device |
| B3dmReader.LoadPath | src/3d/3dtiles/b3dm.cpp:6-69 | the same for a file built from its sections |
| B3dmReader.LoadReadsGltf | src/3d/3dtiles/b3dm.cpp:6-69 | with the layout's glTF length, loading a well-formed file returns exactly its glTF bytes and the feature table its JSON and binary describe |
| B3dmReader.LoadAsWrittenTruncatesGltf | src/3d/3dtiles/b3dm.cpp:46-49 | as written, a file whose feature-table binary is longer than its batch-table binary loses the last `ftBin - btBin` bytes of its glTF |
| B3dmReader.Device.constructor | src/3d/3dtiles/b3dm.cpp:6 | a device opens at position 0 on its bytes |
| B3dmReader.Device.Read | src/3d/3dtiles/b3dm.cpp:13 | `read(n)` returns `ReadBytes` and advances the position by what it returned |
| B3dmReader.Device.Close | src/3d/3dtiles/b3dm.cpp:68 | `close()` closes the device |
| B3dmReader.B3dm.constructor | src/3d/3dtiles/b3dm.cpp:3-4 | `B3dm()` starts with a zeroed header and the default feature table (batch length 0) (also lines 79-80) |
| B3dmReader.B3dm.Load | src/3d/3dtiles/b3dm.cpp:6-69 | `load(dev)` leaves the reader, the device and the result exactly as `LoadBytes` describes |
| B3dmReader.B3dm.LoadTables | src/3d/3dtiles/b3dm.cpp:12-69 | `load` past the magic check behaves as `AfterHeader` |
| B3dmReader.B3dm.LoadBatchAndGltf | src/3d/3dtiles/b3dm.cpp:28-69 | `load` past the feature table behaves as `AfterFeatureTable` |
| B3dmReader.B3dm.ReadHeader | src/3d/3dtiles/b3dm.cpp:7 | the header read stores `HeaderRead` and advances by the bytes read |
| B3dmReader.B3dm.ReadFeatureTable | src/3d/3dtiles/b3dm.cpp:12-26 | the feature-table reads behave as `FeatureTableStep` |
| B3dmReader.B3dm.ReadBatchTable | src/3d/3dtiles/b3dm.cpp:28-41 | the batch-table reads behave as `BatchTableStep` |
| VectorProfile.AbsoluteIgnoresTerrain | src/core/vector/qgsvectorlayerprofilegenerator.cpp:1431-1466 | with absolute clamping the terrain is never consulted: the height is the feature z (0 when missing) times the z scale plus the offset |
| VectorProfile.UnknownTerrainReadsAbsolute | src/core/vector/qgsvectorlayerprofilegenerator.cpp:1412-1466 | where the terrain provider has no height (none configured, or NaN), relative and terrain clamping fall back to the absolute height |
| VectorProfile.KnownTerrainShifts | src/core/vector/qgsvectorlayerprofilegenerator.cpp:1412-1466 | where the terrain height t is known, relative clamping scales z + t and terrain clamping scales t alone, ignoring the feature z |
| VectorProfile.ClampKeepsPlan | src/core/vector/qgsvectorlayerprofilegenerator.cpp:1468-1518 | clamping a line string changes only z: every vertex keeps its x and y |
| VectorProfile.ClampAgreesWithFeatureZ | src/core/vector/qgsvectorlayerprofilegenerator.cpp:1468-1518 | under absolute clamping, or vertex binding with a known terrain height, a clamped vertex gets exactly the height featureZToHeight gives the same point (also lines 1431-1466) |
| VectorProfile.CentroidTerrainIsFlat | src/core/vector/qgsvectorlayerprofilegenerator.cpp:1468-1518 | terrain clamping bound to the centroid gives every vertex of the line the same height |
| VectorProfile.ClampUnknownTerrainIsNaN | src/core/vector/qgsvectorlayerprofilegenerator.cpp:1468-1518 | unlike featureZToHeight, clampAltitudes bound to vertices writes NaN where the terrain has no height, instead of falling back to the absolute height |
| VectorProfile.LineString.constructor | src/core/vector/qgsvectorlayerprofilegenerator.cpp:1468-1518 | a line string holds the vertices it is given |
| VectorProfile.ClampLineAltitudes | src/core/vector/qgsvectorlayerprofilegenerator.cpp:1468-1518 | clamping a line string in place replaces its vertices by the clamped ones, one per vertex, in order |
| VectorProfile.Polygon.constructor | src/core/vector/qgsvectorlayerprofilegenerator.cpp:1520-1556 | a polygon holds its exterior ring, interior rings and 3D flag as given |
| VectorProfile.Polygon.AddZValue | src/core/vector/qgsvectorlayerprofilegenerator.cpp:1522-1523 | adding a z value makes the polygon 3D and gives every vertex of each line-string ring that z, leaving the rings themselves in place |
| VectorProfile.ClampInteriorRings | src/core/vector/qgsvectorlayerprofilegenerator.cpp:1543-1554 | interior rings are clamped in order until the first one that is not a line string; the result is false exactly when such a ring exists, and the rings from it on are left as they were |
| VectorProfile.ClampPolygonAltitudes | src/core/vector/qgsvectorlayerprofilegenerator.cpp:1520-1556 | a 2D polygon first gets z = 0; a polygon whose exterior is not a line string fails untouched; otherwise the exterior is clamped at its centroid and the interiors as above, and the result says whether every ring could be clamped |
| VectorProfile.IdentifyStep | src/core/vector/qgsvectorlayerprofilegenerator.cpp:98-121 | one visit gives the visited feature an entry and keeps every other entry; a new feature gets the visit, a known one gets it only when its delta is strictly smaller, so the kept delta never exceeds the visit's or the previous entry's |
| VectorProfile.IdentifiedKeys | src/core/vector/qgsvectorlayerprofilegenerator.cpp:95-123 | identify reports exactly one entry per visited feature id |
| VectorProfile.IdentifiedIsClosest | src/core/vector/qgsvectorlayerprofilegenerator.cpp:98-121 | the entry kept for a feature has a delta no larger than any visit of that feature |
| VectorProfile.IdentifiedIsFirstClosest | src/core/vector/qgsvectorlayerprofilegenerator.cpp:98-121 | the entry kept is the first visit of that feature whose delta is minimal: later visits replace it only when strictly closer |
| VectorProfile.IdentifyCollector.constructor | src/core/vector/qgsvectorlayerprofilegenerator.cpp:97 | identify starts with no features |
| VectorProfile.IdentifyCollector.Visit | src/core/vector/qgsvectorlayerprofilegenerator.cpp:98-121 | one visit inserts the feature when new and replaces its entry only when the new delta is strictly smaller |
| VectorProfile.IdentifyVisits | src/core/vector/qgsvectorlayerprofilegenerator.cpp:95-123 | after all visits the map is what the visits give one after another, so it holds every visited id, each with its own id and the first of its visits of least delta |
| VectorProfile.SnapAsWrittenMissesClosest | src/core/vector/qgsvectorlayerprofilegenerator.cpp:147-164 | as written the snap visitor compares the candidate's distance along the profile with the best delta, so for two visits of deltas 5 and 1 it keeps the farther one |
| VectorProfile.SnappedIsClosest | src/core/vector/qgsvectorlayerprofilegenerator.cpp:147-164 | with the comparison made on deltas, snapping yields a point exactly when something was visited, and that point is a visit of least delta |
| VectorProfile.PartVisitsExactly | src/core/vector/qgsvectorlayerprofilegenerator.cpp:176-197 | the parts of a point feature are visited exactly when they lie within the distance and elevation tolerances, each with its hypot distance to the target |
| VectorProfile.XRangeHoldsParts | src/core/vector/qgsvectorlayerprofilegenerator.cpp:176-178 | the cross-section bounding box spans every part's distance |
| VectorProfile.BoxTestIsRedundantForPoints | src/core/vector/qgsvectorlayerprofilegenerator.cpp:176-197 | any part within the distance tolerance passes the bounding-box test too, so for point features the box test only prunes |
| VectorProfile.VisitFeaturesAtPoint | src/core/vector/qgsvectorlayerprofilegenerator.cpp:166-200 | the visits are those of every feature in turn, in order, each admitted by the box test and then filtered per part |
| VectorProfile.VectorLayerProfileResults.constructor | src/core/vector/qgsvectorlayerprofilegenerator.cpp:755-789 | results start empty, with minZ at the largest double and maxZ at the lowest, so the first processed point sets both |
| VectorProfile.VectorLayerProfileResults.ProcessPoint | src/core/vector/qgsvectorlayerprofilegenerator.cpp:755-789 | a point outside the buffered curve changes nothing; otherwise its height is appended to the raw points and the distance map, minZ and maxZ widen to cover it (and its extruded top), and exactly one feature record is appended to that feature's list, every other list unchanged: a point at the new height with a point cross-section, or with extrusion a vertical line from the height to the top in both; every raw point stays within [minZ, maxZ] |
| VectorProfile.Clamped | src/core/vector/qgsvectorlayerprofilegenerator.cpp:1468-1518 | clamping yields one vertex per input vertex |
| VectorProfile.LeadingLines | src/core/vector/qgsvectorlayerprofilegenerator.cpp:1543-1554 | the interior rings before the first one that is not a line string, which are exactly the rings the loop clamps before it gives up |
| MeshProfile.HeightMapKeys | src/core/mesh/qgsmeshlayerprofilegenerator.cpp:35-43 | the distance-to-height map has exactly the result distances as keys |
| MeshProfile.HeightMapLastWins | src/core/mesh/qgsmeshlayerprofilegenerator.cpp:35-43 | each distance maps to the height of the last result at that distance, since later inserts overwrite |
| MeshProfile.RawPointsCount | src/core/mesh/qgsmeshlayerprofilegenerator.cpp:111-125 | samples whose transformation throws are skipped, so there are never more raw points than samples, and as many when none throws |
| MeshProfile.Located | src/core/mesh/qgsmeshlayerprofilegenerator.cpp:132-140 | there is one (distance, height) result per raw point |
| MeshProfile.QgsMeshLayerProfileResults.constructor | src/core/mesh/qgsmeshlayerprofilegenerator.cpp:101 | fresh results hold no raw points and no results |
| MeshProfile.QgsMeshLayerProfileResults.Type | src/core/mesh/qgsmeshlayerprofilegenerator.cpp:30-33 | the result type is "mesh" |
| MeshProfile.QgsMeshLayerProfileResults.DistanceToHeightMap | src/core/mesh/qgsmeshlayerprofilegenerator.cpp:35-43 | the map built by inserting every result in order, whose keys are exactly the result distances |
| MeshProfile.QgsMeshLayerProfileResults.SampledPoints | src/core/mesh/qgsmeshlayerprofilegenerator.cpp:45-48 | the sampled points are the raw points unchanged |
| MeshProfile.QgsMeshLayerProfileResults.AsGeometries | src/core/mesh/qgsmeshlayerprofilegenerator.cpp:50-58 | one point geometry per raw point, in the same order |
| MeshProfile.QgsMeshLayerProfileGenerator.constructor | src/core/mesh/qgsmeshlayerprofilegenerator.cpp:69-78 | a generator records whether the request carried a profile curve and holds no results yet |
| MeshProfile.QgsMeshLayerProfileGenerator.GenerateProfile | src/core/mesh/qgsmeshlayerprofilegenerator.cpp:82-143 | fails, leaving the results as they were, exactly when there is no profile curve or it cannot be transformed to the mesh CRS; otherwise fresh results hold the successfully transformed samples with their mesh heights and one located result per raw point |
| AxisSettings.ParseMode | src/3d/qgs3daxissettings.cpp:55-61 | a mode string that is the name of a mode ("Off", "Crs", "Cube") gives that mode; anything else keeps the current one |
| AxisSettings.ParsePosition | src/3d/qgs3daxissettings.cpp:63-77 | a position string "Begin", "Middle" or "End" gives that position; anything else keeps the current one |
| AxisSettings.ReadWriteRoundTrip | src/3d/qgs3daxissettings.cpp:53-129 | reading back what writeXml wrote restores mode, horizontal and vertical position, whatever the reader held before |
| AxisSettings.ReadKeepsUnrecognised | src/3d/qgs3daxissettings.cpp:53-78 | a missing or unrecognised attribute leaves its field unchanged, and a null element changes nothing |
| AxisSettings.Qgs3DAxisSettings.Copy | src/3d/qgs3daxissettings.cpp:23-29 | the copy holds the same mode and positions |
| AxisSettings.Qgs3DAxisSettings.Assign | src/3d/qgs3daxissettings.cpp:31-37 | assignment copies all three fields from the right-hand side |
| AxisSettings.Qgs3DAxisSettings.Equals | src/3d/qgs3daxissettings.cpp:39-46 | equal exactly when mode and both positions agree |
| AxisSettings.Qgs3DAxisSettings.NotEquals | src/3d/qgs3daxissettings.cpp:48-51 | the negation of equality |
| AxisSettings.Qgs3DAxisSettings.ReadXml | src/3d/qgs3daxissettings.cpp:53-78 | each of the three attributes, when recognised, replaces its field, and the others stay |
| AxisSettings.Qgs3DAxisSettings.WriteXml | src/3d/qgs3daxissettings.cpp:80-129 | writes exactly the attributes mode, horizontal and vertical, keeping the element's others, and what it writes reads back to the settings |
| BoundingBoxSettings.ToInt | src/3d/qgs3dboundingboxsettings.cpp:60 | `QString::toInt` yields a value in the 32-bit range, and 0 for anything it cannot convert |
| BoundingBoxSettings.ToIntIgnoresSpaces | src/3d/qgs3dboundingboxsettings.cpp:60 | white space before and after the text does not change what `toInt` makes of it |
| BoundingBoxSettings.TrimIgnoresSpaces | src/3d/qgs3dboundingboxsettings.cpp:60 | the text `toInt` converts, once trimmed, is the same with or without surrounding white space |
| BoundingBoxSettings.ToIntHasDigit | src/3d/qgs3dboundingboxsettings.cpp:60 | a text that `toInt` turns into a nonzero value contains a digit from 1 to 9 |
| BoundingBoxSettings.EnabledFromString | src/3d/qgs3dboundingboxsettings.cpp:59-60 | the flag is read as enabled only from a text that contains a nonzero digit |
| BoundingBoxSettings.EnabledRoundTrip | src/3d/qgs3dboundingboxsettings.cpp:57-76 | the enabled flag written as "1" or "0" reads back unchanged |
| BoundingBoxSettings.MissingEnabledIsFalse | src/3d/qgs3dboundingboxsettings.cpp:59-60 | a missing "enabled" attribute reads as the default "0", that is disabled |
| BoundingBoxSettings.NonzeroReadsEnabled | src/3d/qgs3dboundingboxsettings.cpp:59-60 | any digit string denoting a nonzero 32-bit value reads as enabled |
| BoundingBoxSettings.Qgs3DBoundingBoxSettings.constructor | src/3d/qgs3dboundingboxsettings.h:40-90 | a default-constructed settings object is disabled, with 7 ticks, black, full and not shown in 2D |
| BoundingBoxSettings.Qgs3DBoundingBoxSettings.FromValues | src/3d/qgs3dboundingboxsettings.cpp:30-35 | the given flag and extent are stored; the display options keep their member defaults |
| BoundingBoxSettings.Qgs3DBoundingBoxSettings.Copy | src/3d/qgs3dboundingboxsettings.cpp:23-28 | the copy takes the flag and extent from the original, while its display options are the member defaults, not the original's |
| BoundingBoxSettings.Qgs3DBoundingBoxSettings.Assign | src/3d/qgs3dboundingboxsettings.cpp:37-42 | assignment copies the flag and extent and leaves the display options as they were |
| BoundingBoxSettings.Qgs3DBoundingBoxSettings.Equals | src/3d/qgs3dboundingboxsettings.cpp:44-50 | equal exactly when flag and extent agree; the display options are not compared |
| BoundingBoxSettings.Qgs3DBoundingBoxSettings.NotEquals | src/3d/qgs3dboundingboxsettings.cpp:52-55 | the negation of equality |
| BoundingBoxSettings.Qgs3DBoundingBoxSettings.ReadXml | src/3d/qgs3dboundingboxsettings.cpp:57-64 | the flag is the nonzero test of "enabled" (default "0") and the extent is parsed from "extent"; the display options stay |
| BoundingBoxSettings.Qgs3DBoundingBoxSettings.WriteXml | src/3d/qgs3dboundingboxsettings.cpp:66-76 | a null element comes back null; otherwise the element gains exactly "enabled" and "extent" |
| BoundingBoxSettings.ReadWriteRoundTrip | src/3d/qgs3dboundingboxsettings.cpp:57-76 | reading back a written element restores the flag, and the extent whenever the extent's own string form round-trips |
| AxisRenderView.Divide | src/3d/qgs3daxisrenderview.cpp:109-110 | the `float` quotient of the size by a window extent is exact for a nonzero extent, and for a zero extent is plus or minus infinity by the size's sign, or NaN for a zero size |
| AxisRenderView.Minus | src/3d/qgs3daxisrenderview.cpp:115-126 | subtracting a ratio from 0.5 or 1.0 keeps a finite value finite, turns plus infinity into minus infinity and keeps NaN |
| AxisRenderView.Half | src/3d/qgs3daxisrenderview.cpp:115 | halving a ratio halves a finite value and keeps infinities and NaN |
| AxisRenderView.Origin | src/3d/qgs3daxisrenderview.cpp:112-126 | a Begin viewport starts at 0, a finite Middle one is centred on 0.5, a finite End one ends at 1; an infinite ratio puts a Middle or End origin at minus infinity, and NaN stays NaN |
| AxisRenderView.ViewportRect | src/3d/qgs3daxisrenderview.cpp:107-132 | the normalised rectangle is the viewport size over the window's width and height, placed by the horizontal and vertical anchors; each ratio is exact for a nonzero window extent |
| AxisRenderView.ZeroWidthViewport | src/3d/qgs3daxisrenderview.cpp:107-132 | in a window of zero width, a positive size gives an infinite width and an origin at minus infinity unless anchored at the beginning, and a zero size gives NaN |
| AxisRenderView.ViewportInsideWindow | src/3d/qgs3daxisrenderview.cpp:107-132 | in a non-empty window, a viewport no larger than the window is finite and lies within the unit square, whatever the anchors |
| AxisRenderView.RatioAtMostOne | src/3d/qgs3daxisrenderview.cpp:109-110 | a size no larger than a positive window extent gives a ratio between 0 and 1 |
| AxisRenderView.Window.constructor | src/3d/qgs3daxisrenderview.cpp:109-110 | the parent window has the given width and height, zero included, and no repaint requested yet |
| AxisRenderView.Qgs3DAxisRenderView.constructor | src/3d/qgs3daxisrenderview.cpp:38-68 | the viewport is placed from the map's axis settings, with the vertical and horizontal positions they hold |
| AxisRenderView.Qgs3DAxisRenderView.OnAxisViewportSizeUpdate | src/3d/qgs3daxisrenderview.cpp:107-132 | the rectangle is recomputed from the stored size and anchors and the current window size |
| AxisRenderView.Qgs3DAxisRenderView.SetAxisViewportPosition | src/3d/qgs3daxisrenderview.cpp:98-105 | stores size and anchors, recomputes the rectangle and requests exactly one repaint |
| AxisRenderView.Qgs3DAxisRenderView.OnAxisHorizPositionChanged | src/3d/qgs3daxisrenderview.cpp:136-142 | only the horizontal anchor changes, both in the view and in the map's axis settings |
| AxisRenderView.Qgs3DAxisRenderView.OnAxisVertPositionChanged | src/3d/qgs3daxisrenderview.cpp:144-150 | only the vertical anchor changes, both in the view and in the map's axis settings |
| RenderViews.Texture2D.constructor | src/3d/framegraph/qgsabstractrenderview.cpp:35 | a texture has the size it is created with |
| RenderViews.Texture2D.SetSize | src/3d/framegraph/qgsabstractrenderview.cpp:35 | setSize gives the texture exactly the new width and height |
| RenderViews.FirstTextureAt | src/3d/framegraph/qgsabstractrenderview.cpp:38-45 | outputTexture returns the texture of output i when i is the first output attached at that point |
| RenderViews.FirstTextureNone | src/3d/framegraph/qgsabstractrenderview.cpp:38-45 | outputTexture returns null exactly when no output is attached at that point, the empty list included |
| RenderViews.QgsAbstractRenderView.constructor | src/3d/framegraph/qgsabstractrenderview.cpp:20-24 | a new view has no target outputs, an enabled subtree and is not attached to the frame graph |
| RenderViews.QgsAbstractRenderView.SetTargetOutputs | src/3d/framegraph/qgsabstractrenderview.cpp:26-30 | the target-output list is replaced by the given one |
| RenderViews.QgsAbstractRenderView.UpdateTargetOutputSize | src/3d/framegraph/qgsabstractrenderview.cpp:32-36 | every texture of every target output ends with the given width and height |
| RenderViews.QgsAbstractRenderView.OutputTexture | src/3d/framegraph/qgsabstractrenderview.cpp:38-45 | the texture of the first output at the attachment point, or none |
| RenderViews.QgsAbstractRenderView.EnableSubTree | src/3d/framegraph/qgsambientocclusionrenderview.cpp:81-92 | the subtree's enabled state becomes the given one, and isSubTreeEnabled reports it |
| RenderViews.Touched | src/3d/framegraph/qgsshadowrenderingframegraph.cpp:381-424 | evaluating the dictionary's operator[] on a name always leaves that name as a key |
| RenderViews.TouchKeepsBindings | src/3d/framegraph/qgsshadowrenderingframegraph.cpp:412-425 | a lookup binds and unbinds nothing and keeps every bound view |
| RenderViews.TouchUnknownAddsNull | src/3d/framegraph/qgsshadowrenderingframegraph.cpp:412-415 | looking up an unknown name leaves a null entry in the dictionary |
| RenderViews.RegisterBinds | src/3d/framegraph/qgsshadowrenderingframegraph.cpp:389-402 | registering on an unbound name binds it to the view and leaves every other name as it was |
| RenderViews.UnregisterUnbinds | src/3d/framegraph/qgsshadowrenderingframegraph.cpp:379-387 | unregistering leaves the name unbound and every other name as it was |
| RenderViews.RegisterUnregisterRoundTrip | src/3d/framegraph/qgsshadowrenderingframegraph.cpp:379-402 | registering then unregistering a name that was absent gives back the dictionary |
| RenderViews.ForwardRenderPass | src/3d/framegraph/qgsshadowrenderingframegraph.cpp:71-101 | the forward pass builds a new, unattached, enabled forward view whose two outputs render depth and then colour into new textures of the frame size |
| RenderViews.ShadowRenderPass | src/3d/framegraph/qgsshadowrenderingframegraph.cpp:113-130 | the shadow pass builds a new, unattached, enabled shadow view whose one output renders depth into a new 2048 by 2048 shadow map (also src/3d/framegraph/qgsshadowrenderingframegraph.h:240) |
| FrameGraph.DepthRenderPass | src/3d/framegraph/qgsshadowrenderingframegraph.cpp:287-318 | the depth pass builds a new, unattached, enabled depth view whose outputs render colour and then depth into new textures of the frame size |
| FrameGraph.RegisteredPasses | src/3d/framegraph/qgsshadowrenderingframegraph.cpp:355-376 | the passes leave exactly "forward", "depth", "shadow" and "debug" bound, each to an attached, enabled view of its kind with its pass's outputs and texture sizes; the debug view has no outputs (also lines 59-68, 102, 131 and 319) |
| FrameGraph.QgsShadowRenderingFrameGraph.constructor | src/3d/framegraph/qgsshadowrenderingframegraph.cpp:337-377 | the size it is given (also the surface's render target size), render capture on (also src/3d/framegraph/qgsshadowrenderingframegraph.h:270), and the registry the passes leave: the four named views with their outputs and sizes |
| FrameGraph.QgsShadowRenderingFrameGraph.UnregisterRenderView | src/3d/framegraph/qgsshadowrenderingframegraph.cpp:379-387 | a bound view is detached from the frame graph and its name removed; an unknown name is left behind with a null entry |
| FrameGraph.QgsShadowRenderingFrameGraph.RegisterRenderView | src/3d/framegraph/qgsshadowrenderingframegraph.cpp:389-402 | true exactly when the name was unbound, in which case the view is bound and attached; otherwise the dictionary only gains a null entry for an absent name and the view is untouched |
| FrameGraph.QgsShadowRenderingFrameGraph.SetEnableRenderView | src/3d/framegraph/qgsshadowrenderingframegraph.cpp:404-410 | only the named view, when bound, gets the new enabled state; the lookup may add a null entry |
| FrameGraph.QgsShadowRenderingFrameGraph.RenderView | src/3d/framegraph/qgsshadowrenderingframegraph.cpp:412-415 | returns the bound view, or null for an unbound name, which it leaves in the dictionary |
| FrameGraph.QgsShadowRenderingFrameGraph.FilterLayer | src/3d/framegraph/qgsshadowrenderingframegraph.cpp:417-420 | dereferences the entry, so the caller must name a bound view; the result is that view's layer |
| FrameGraph.QgsShadowRenderingFrameGraph.IsRenderViewEnabled | src/3d/framegraph/qgsshadowrenderingframegraph.cpp:422-425 | true exactly when the name is bound to a view whose subtree is enabled |
| FrameGraph.QgsShadowRenderingFrameGraph.SetSize | src/3d/framegraph/qgsshadowrenderingframegraph.cpp:469-484 | as written: with no null entry in the dictionary, the size, the surface's render target size, every view's output textures and the four frame-graph textures all take the new size |
| FrameGraph.QgsShadowRenderingFrameGraph.SetSizeSkippingNull | src/3d/framegraph/qgsshadowrenderingframegraph.cpp:469-484 | with null entries skipped, setSize succeeds on any dictionary and resizes every bound view and the four textures |
| FrameGraph.QgsShadowRenderingFrameGraph.SetRenderCaptureEnabled | src/3d/framegraph/qgsshadowrenderingframegraph.cpp:486-492 | the flag takes the new value; the capture selector changes only when the value changes |
| FrameGraph.LookupBreaksSetSize | src/3d/framegraph/qgsshadowrenderingframegraph.cpp:379-425 | looking up or unregistering an unknown name leaves a null entry, after which setSize as written would dereference null (also lines 469-476) |
| LegacyFrameGraph.CornerCenter | src/3d/qgsshadowrenderingframegraph.cpp:597-618 | the quad's centre sits half its size in from the two window edges of the chosen corner |
| LegacyFrameGraph.HalfSize | src/3d/qgsshadowrenderingframegraph.cpp:604-615 | the size passed is half the quad's edge in both directions |
| LegacyFrameGraph.CornerQuadInsideWindow | src/3d/qgsshadowrenderingframegraph.cpp:597-642 | a quad of edge at most the window lies within the unit square, whatever the corner |
| LegacyFrameGraph.CornersDistinct | src/3d/qgsshadowrenderingframegraph.cpp:597-642 | two different corners place a quad narrower than the window at different centres |
| LegacyFrameGraph.PreviewQuad.constructor | src/3d/qgsshadowrenderingframegraph.cpp:538-545 | a preview quad is created enabled, with the centre and size it is given |
| LegacyFrameGraph.PreviewQuad.SetEnabled | src/3d/qgsshadowrenderingframegraph.cpp:599 | setEnabled stores the new state |
| LegacyFrameGraph.PreviewQuad.SetViewPort | src/3d/qgsshadowrenderingframegraph.cpp:604-615 | setViewPort stores the centre and size |
| LegacyFrameGraph.AmbientOcclusionRenderEntity.constructor | src/3d/qgsshadowrenderingframegraph.cpp:238 | the entity class is not part of this model, so its initial state is the model's assumption: off, intensity 0.5, radius 25 and threshold 0.5, the defaults the frame graph stores (src/3d/framegraph/qgsshadowrenderingframegraph.h:243-246) |
| LegacyFrameGraph.PostprocessingEntity.constructor | src/3d/qgsshadowrenderingframegraph.cpp:190 | the entity class is not part of this model, so its initial state is the model's assumption: ambient occlusion and eye-dome lighting off, strength 1000 and distance 1, the frame graph's own defaults (src/3d/qgsshadowrenderingframegraph.h:200-202) |
| LegacyFrameGraph.RegisteredPasses | src/3d/qgsshadowrenderingframegraph.cpp:454-477 | the passes leave exactly "forward" and "shadow" bound, to an attached, enabled forward view rendering depth and colour at the frame size and a shadow view rendering depth into a 2048 by 2048 map (also lines 107 and 136) |
| LegacyFrameGraph.QgsShadowRenderingFrameGraph.constructor | src/3d/qgsshadowrenderingframegraph.cpp:427-493 | the given size, the forward and shadow views registered with their outputs, ambient occlusion off at intensity 0.5, radius 25 and threshold 0.5, eye-dome lighting off at strength 1000 and distance 1, every such setting equal to the one its entity holds, and both debug quads disabled (also src/3d/qgsshadowrenderingframegraph.h:198-202, src/3d/framegraph/qgsshadowrenderingframegraph.h:243-246) |
| LegacyFrameGraph.QgsShadowRenderingFrameGraph.UnregisterRenderView | src/3d/qgsshadowrenderingframegraph.cpp:495-503 | a bound view is detached and its name removed; an unknown name is left with a null entry |
| LegacyFrameGraph.QgsShadowRenderingFrameGraph.RegisterRenderView | src/3d/qgsshadowrenderingframegraph.cpp:505-518 | true exactly when the name was unbound, and then the view is bound and attached |
| LegacyFrameGraph.QgsShadowRenderingFrameGraph.SetEnableRenderView | src/3d/qgsshadowrenderingframegraph.cpp:520-526 | only the named view, when bound, gets the new enabled state |
| LegacyFrameGraph.QgsShadowRenderingFrameGraph.RenderView | src/3d/qgsshadowrenderingframegraph.cpp:528-531 | the bound view or null, leaving an unknown name in the dictionary |
| LegacyFrameGraph.QgsShadowRenderingFrameGraph.IsRenderViewEnabled | src/3d/qgsshadowrenderingframegraph.cpp:533-536 | true exactly when the name is bound to a view whose subtree is enabled |
| LegacyFrameGraph.QgsShadowRenderingFrameGraph.SetAmbientOcclusionEnabled | src/3d/qgsshadowrenderingframegraph.cpp:555-560 | the flag is stored and forwarded to the ambient-occlusion and post-processing entities; stored and forwarded values stay equal |
| LegacyFrameGraph.QgsShadowRenderingFrameGraph.SetAmbientOcclusionIntensity | src/3d/qgsshadowrenderingframegraph.cpp:562-566 | the intensity is stored and forwarded; stored and forwarded values stay equal |
| LegacyFrameGraph.QgsShadowRenderingFrameGraph.SetAmbientOcclusionRadius | src/3d/qgsshadowrenderingframegraph.cpp:568-572 | the radius is stored and forwarded; stored and forwarded values stay equal |
| LegacyFrameGraph.QgsShadowRenderingFrameGraph.SetAmbientOcclusionThreshold | src/3d/qgsshadowrenderingframegraph.cpp:574-578 | the threshold is stored and forwarded; stored and forwarded values stay equal |
| LegacyFrameGraph.QgsShadowRenderingFrameGraph.SetupEyeDomeLighting | src/3d/qgsshadowrenderingframegraph.cpp:587-595 | the three eye-dome lighting values are stored and forwarded to the post-processing entity; stored and forwarded values stay equal |
| LegacyFrameGraph.QgsShadowRenderingFrameGraph.SetupShadowMapDebugging | src/3d/qgsshadowrenderingframegraph.cpp:597-618 | the shadow-map quad takes the enabled state; when enabled it is placed in the corner, when disabled its placement is kept |
| LegacyFrameGraph.QgsShadowRenderingFrameGraph.SetupDepthMapDebugging | src/3d/qgsshadowrenderingframegraph.cpp:620-642 | the same for the depth-map quad |
| LegacyFrameGraph.QgsShadowRenderingFrameGraph.PlaceInCorner | src/3d/qgsshadowrenderingframegraph.cpp:601-616 | the corner switch places the quad at CornerCenter with HalfSize |
| LegacyFrameGraph.QgsShadowRenderingFrameGraph.SetSize | src/3d/qgsshadowrenderingframegraph.cpp:644-659 | the size and render target size change; the view bound to "forward" is resized when it is a forward render view, and so are the six frame-graph textures; nothing else of the view changes, and a view of another kind bound to "forward" keeps its textures; the lookup may leave a null "forward" entry |
| LegacyFrameGraph.QgsShadowRenderingFrameGraph.SetRenderCaptureEnabled | src/3d/qgsshadowrenderingframegraph.cpp:661-667 | the flag takes the new value; the capture selector changes only when the value changes |
| WiredMesh.Flattened | src/3d/mesh/qgs3dwiredmesh.cpp:43-54 | the buffer holds three floats per vertex |
| WiredMesh.FlattenedEntries | src/3d/mesh/qgs3dwiredmesh.cpp:49-54 | entries 3i, 3i+1 and 3i+2 of the buffer are the x, y and z of vertex i |
| WiredMesh.Unflattened | src/3d/mesh/qgs3dwiredmesh.cpp:46-47 | a buffer whose length is a multiple of three reads back as a third as many vertices |
| WiredMesh.UnflattenFlattened | src/3d/mesh/qgs3dwiredmesh.cpp:43-57 | reading the buffer back three floats at a time gives the vertex list again |
| WiredMesh.UnflattenedEntry | src/3d/mesh/qgs3dwiredmesh.cpp:46-47 | vertex i read from the buffer is entries 3i, 3i+1 and 3i+2 |
| WiredMesh.Qgs3DWiredMesh.constructor | src/3d/mesh/qgs3dwiredmesh.cpp:20-39 | a float position attribute of three components on a Lines renderer, one instance, index offset and first instance 0, no vertices |
| WiredMesh.Qgs3DWiredMesh.SetVertices | src/3d/mesh/qgs3dwiredmesh.cpp:43-58 | the buffer becomes the flattened vertex list, its byte length 4 bytes per float, and the vertex count the number of vertices |
| OdbcUtil.CString | external/odbccpp/src/odbc/Util.cpp:10 | the characters a C string denotes: the longest prefix without NUL, ending at the first NUL if there is one |
| OdbcUtil.Quoted | external/odbccpp/src/odbc/Util.cpp:34-41 | a quoted identifier starts and ends with a double quote |
| OdbcUtil.Escape | external/odbccpp/src/odbc/Util.cpp:8-23 | walks the string up to its first NUL, doubling every double quote and copying every other character |
| OdbcUtil.QuoteChars | external/odbccpp/src/odbc/Util.cpp:34-41 | the escaped C string between two double quotes |
| OdbcUtil.QuoteString | external/odbccpp/src/odbc/Util.cpp:29-32 | quoting a std::string quotes its c_str(), so an embedded NUL ends it; a NUL-free string is quoted whole |
| OdbcUtil.QuoteQualifiedChars | external/odbccpp/src/odbc/Util.cpp:48-57 | schema and table are each quoted and joined by a dot |
| OdbcUtil.QuoteQualifiedString | external/odbccpp/src/odbc/Util.cpp:43-46 | the std::string overload does the same on the c_str() of each, and on the whole strings when they hold no NUL |
| OdbcUtil.CStringUpToNul | external/odbccpp/src/odbc/Util.cpp:10 | reading stops exactly at the first NUL |
| OdbcUtil.CStringWithoutNul | external/odbccpp/src/odbc/Util.cpp:10 | a string without NUL is read whole |
| OdbcUtil.CStringIgnoresTail | external/odbccpp/src/odbc/Util.cpp:10 | nothing after a NUL is ever read |
| OdbcUtil.EscapedAppend | external/odbccpp/src/odbc/Util.cpp:8-23 | escaping a concatenation is the concatenation of the escapes |
| OdbcUtil.EscapedCons | external/odbccpp/src/odbc/Util.cpp:10-21 | escaping from the front one character at a time, as the loop does |
| OdbcUtil.EscapedLength | external/odbccpp/src/odbc/Util.cpp:12-20 | the escaped body is one character longer than the input for each double quote |
| OdbcUtil.QuotedLength | external/odbccpp/src/odbc/Util.cpp:34-41 | a quoted identifier is two delimiters plus the input plus one extra character per double quote |
| OdbcUtil.UnescapeEscaped | external/odbccpp/src/odbc/Util.cpp:8-23 | reading the escaped body with each pair of double quotes as one gives the input back |
| OdbcUtil.UnquoteQuoted | external/odbccpp/src/odbc/Util.cpp:34-41 | stripping the delimiters and undoing the doubling gives the identifier back |
| ElevationProperties.WriteXml | tests/src/python/test_qgsvectorlayerelevationproperties.py:69-71 | writeXml keeps the element null or not, and adds exactly one attribute per stored setting to those it held |
| ElevationProperties.XmlRoundTrip | tests/src/python/test_qgsvectorlayerelevationproperties.py:69-84 | writing into an element and reading it into any object, a fresh one in particular, reproduces every setting and every symbol |
| ElevationProperties.ReadsWritten | tests/src/python/test_qgsvectorlayerelevationproperties.py:69-80 | each written attribute reads back as written, whatever the element held before |
| ElevationProperties.ReadEmptyGivesDefaults | tests/src/python/test_qgsvectorlayerelevationproperties.py:34-41 | reading an empty element gives the defaults (scale 1, offset 0, no extrusion of height 0, terrain clamping, centroid binding), without elevation |
| ElevationProperties.QgsVectorLayerElevationProperties.constructor | tests/src/python/test_qgsvectorlayerelevationproperties.py:34-41 | a new object has scale 1, offset 0, extrusion off with height 0, terrain clamping and centroid binding, and no elevation |
| ElevationProperties.QgsVectorLayerElevationProperties.SetZScale | tests/src/python/test_qgsvectorlayerelevationproperties.py:44-49 | only the z scale changes |
| ElevationProperties.QgsVectorLayerElevationProperties.SetZOffset | tests/src/python/test_qgsvectorlayerelevationproperties.py:43-50 | only the z offset changes |
| ElevationProperties.QgsVectorLayerElevationProperties.SetClamping | tests/src/python/test_qgsvectorlayerelevationproperties.py:45-54 | only the clamping changes |
| ElevationProperties.QgsVectorLayerElevationProperties.SetBinding | tests/src/python/test_qgsvectorlayerelevationproperties.py:46-55 | only the binding changes |
| ElevationProperties.QgsVectorLayerElevationProperties.SetExtrusionEnabled | tests/src/python/test_qgsvectorlayerelevationproperties.py:48-53 | only the extrusion flag changes, and enabling extrusion gives the layer elevation |
| ElevationProperties.QgsVectorLayerElevationProperties.SetExtrusionHeight | tests/src/python/test_qgsvectorlayerelevationproperties.py:47-51 | only the extrusion height changes |
| ElevationProperties.QgsVectorLayerElevationProperties.SetProfileLineSymbol | tests/src/python/test_qgsvectorlayerelevationproperties.py:57-59 | the line symbol is replaced and reads back with its colour |
| ElevationProperties.QgsVectorLayerElevationProperties.SetProfileFillSymbol | tests/src/python/test_qgsvectorlayerelevationproperties.py:61-63 | the fill symbol is replaced and reads back with its colour |
| ElevationProperties.QgsVectorLayerElevationProperties.SetProfileMarkerSymbol | tests/src/python/test_qgsvectorlayerelevationproperties.py:65-67 | the marker symbol is replaced and reads back with its colour |
| ElevationProperties.QgsVectorLayerElevationProperties.WriteTo | tests/src/python/test_qgsvectorlayerelevationproperties.py:69-71 | writeXml stores the object's settings into the element and leaves the object as it is |
| ElevationProperties.QgsVectorLayerElevationProperties.ReadFrom | tests/src/python/test_qgsvectorlayerelevationproperties.py:73-74 | readXml sets the object to what the element holds, defaults and current symbols filling the gaps |
| ElevationProperties.BasicScenario | tests/src/python/test_qgsvectorlayerelevationproperties.py:33-84 | the unit test's scenario: after the six setters the values read back and hasElevation is true, the three symbols keep their colours, and a fresh object reading the written element equals the first |

## Left out

- Matrix trigonometry and rounding: `rotate`, `projectedRotate`, `perspective`, `lookAt`, `frustum`, `viewport`, `flipCoordinates`, `normalMatrix`, `mapRect` (with `qRound`) are not modelled; they need sin, cos, sqrt or rounding to integers.
- Qt interop: `toTransform`, `toQMatrix4x4` and the `QMatrix4x4`/`QTransform` constructors are not modelled; they convert to Qt types outside this model.
- The `qFuzzyCompare` tests of `optimize` are the boolean input `fuzzyOrthonormal`, because fuzzy floating-point comparison has no exact meaning over reals.
- Every `double` and `float` of the source is an exact real (`real`), so rounding and the limited precision of both formats are not modelled; the axis viewport alone keeps the infinities and NaN of a division by zero.
- Lengths and distances are squared, and `normalize` receives the length as an input satisfying `len * len == lengthSquared`, because reals have no square root here.
- MatrixObject.Matrix4x4.DivAssign: a zero divisor is excluded, because in the source it produces IEEE infinities or NaN, which reals do not have; the same holds for Matrices.DivScalar, Vectors.Div and the zero homogeneous coordinate of Matrices.Times3.
- MatrixObject.Matrix4x4.Scale2 and MatrixObject.Matrix4x4.Translate2 call the three-dimensional versions with z = 1 and z = 0 respectively; the source has separate bodies that the model proves equal at the value level.
- VectorProfile: GEOS `buffer`, `intersects` and `lineLocatePoint` enter as already computed values (whether a point lies in the tolerance buffer, its distance along the curve), and `hypot` as a function input, so the geometry of the profile curve is not modelled.
- VectorProfile: only the point branch of `visitFeaturesAtPoint` is modelled; its line and polygon branches are GEOS intersections.
- VectorProfile: `QHash` iteration order of the identify results is not modelled; results are keyed by feature id.
- VectorProfile: data-defined overrides of z scale, offset and extrusion enter as already evaluated values.
- VectorProfile: feedback cancellation and the fallback to `QgsAbstractProfileSurfaceResults::identify` are not modelled.
- VectorProfile.VectorLayerProfileResults.constructor: the starting `minZ`/`maxZ`, the largest and the lowest double, are written in as constants, because `QgsAbstractProfileSurfaceResults`, which supplies them, is not part of this model.
- MeshProfile: the densification of the profile curve, mesh interpolation and the CRS transformations are inputs to `GenerateProfile`.
- Tiles3D: the network (`waitForData`, `Tileset::fromUrl`, `B3dmHolder::fromUrl`), the creation of cache directories, and the concurrent chunk loader are not modelled; downloaded content is an input.
- Tiles3D: coordinate reprojection (`Q3dPrimitive::reproject`, `checkCoordinateTransform`) takes the transformation as a function input; only the point count and order it keeps are stated.
- Tiles3D: JSON parsing is replaced by records and number sequences already read from the document.
- Tiles3D.ParseTile stores the corrected refinement `Refine`; the source stores what `RefineAsWritten` gives (see Findings).
- Tiles3D.TileStore.GetContent parents a nested tileset to the corrected `ContentParent`, the tile itself; the source passes `ContentParentAsWritten`, the tile's own parent (see Findings).
- Tiles3D.TileStore.FindTile, Tiles3D.TileStore.FindInTileset, Tiles3D.TileStore.FindInTile, Tiles3D.TileStore.FindInContent and Tiles3D.TileStore.FindInChildren take a `fuel` bound that ends the search with the failure `OutOfFuel` after that many descents, which can happen only while the fuel is smaller than the number of nodes the search can still reach; the source's recursion has no bound. Downloads are the `fetch` function input.
- B3dmReader: the glTF loader call is commented out in the source, so the payload is returned as bytes; decoding the 32-bit floats of a binary `RTC_CENTER` is an input function.
- B3dmReader.B3dm.Load reads the corrected glTF length `GltfLength`; the source reads `GltfLengthAsWritten` (see Findings), which `LoadBytes` with that length describes.
- B3dmReader.B3dm.LoadTables reads the corrected glTF length `GltfLength`, for the same reason.
- B3dmReader.B3dm.LoadBatchAndGltf reads the corrected glTF length `GltfLength`, for the same reason.
- B3dmReader.ParseFeatureTable evaluates the three `takeAt` arguments right to left, the order of the usual x86 builds; C++ leaves the order unspecified, and `RtcTakenLeftToRight` gives the other order's centre (see Findings).
- B3dmReader.FloatsAt, B3dmReader.ParseFeatureTable, Tiles3D.FoundTile, Tiles3D.FoundInTileset, Tiles3D.FoundInTile, Tiles3D.TileStore.FindTile, Tiles3D.TileStore.FindInTileset and Tiles3D.TileStore.FindInContent return a `Failure` where the source's behaviour is undefined: reading `RTC_CENTER` or `BATCH_LENGTH` past the end of the feature-table binary (src/3d/3dtiles/b3dm.cpp:94-96, 108), and dereferencing a null root tile (src/3d/3dtiles/3dtiles.cpp:780-781) or a null content (src/3d/3dtiles/3dtiles.cpp:742, 747).
- TilesGeometry.EncodeTileId and Tiles3D.TileStore.EncodeTileId return the `Failure` `OffsetOutOfRange` where the source's conversion of a centre offset to the `int` coordinates of `QgsChunkNodeId` is undefined (src/3d/3dtiles/3dtiles.cpp:792-795), which is the case for tiles more than about 2 147 km from the root centre.
- BoundingBoxSettings: `QgsAABB::fromString` and `toString` are a parse/format pair given as inputs with a round-trip premise.
- Frame-graph construction is modelled only as far as the views it registers, with their output attachment points and texture sizes: the Qt3D node tree, cameras, layers (each view's layer is a distinct number), texture formats and filters, the ambient-occlusion, post-processing and preview passes, `setClearColor`, `setFrustumCullingEnabled` and `setDebugOverlayEnabled` build or configure Qt3D nodes outside this model.
- ElevationProperties: the class source is not part of this model, so the XML layout and the `hasElevation` rule beyond the cases its unit test states are the model's own.
- Widgets, the 3D axis entity, bounding-box tick labelling (Extended Wilkinson on floats), billboard labels and the rendering tests are not modelled.

## Findings

| source | as written | input that shows it | evidently intended | confidence | as-written member | corrected member |
|---|---|---|---|---|---|---|
| src/core/vector/qgsvectorlayerprofilegenerator.cpp:152-156 | the snap visitor compares `distance < bestSnapDistance` but stores `delta` as the best distance | visiting (delta 5, distance 10) and then (delta 1, distance 7): 7 is not below 5, so the closer second point is dropped | compare `delta`, the value it stores | not executed | VectorProfile.SnapAsWrittenMissesClosest | VectorProfile.SnappedIsClosest |
| src/3d/3dtiles/b3dm.cpp:46-49 | the glTF length subtracts `featureTableBinaryByteLength` twice and `batchTableBinaryByteLength` never | a file whose feature-table binary is longer than its batch-table binary: the glTF is cut short by the difference | subtract each of the four table lengths once | not executed | B3dmReader.LoadAsWrittenTruncatesGltf | B3dmReader.LoadReadsGltf |
| src/3d/3dtiles/3dtiles.cpp:481-492 | `if (r.compare("add", Qt::CaseInsensitive))` takes the ADD branch when the strings differ | "add" gives REPLACE and "REPLACE" gives ADD | ADD exactly when the value equals "add" ignoring case, as the refine property of OGC 3D Tiles 1.0 means | not executed | Tiles3D.RefineAsWrittenIsInverted | Tiles3D.Refine |
| src/3d/3dtiles/3dtiles.cpp:628-629 | a ".json" content's nested tileset gets `mParentTile`, the tile's own parent, as its parent | the content of a root tile: the nested tileset becomes a root and loses the tile's transform and the top tileset's options | pass the tile itself, as the b3dm branch at line 638 does | not executed | Tiles3D.ContentParentAsWrittenDetaches | Tiles3D.ContentParentInherits |
| src/3d/3dtiles/b3dm.cpp:86 | the calls `takeAt(0)`, `takeAt(1)` and `takeAt(2)` in one constructor-argument list, whose evaluation order C++ leaves unspecified; each call removes an element | left to right on an `RTC_CENTER` array of 3 or 4 items gives items 0 and 2 and then 0, since the third call is out of range; on 5 or more it reads items 0, 2 and 4 | the first three items, in order | not executed | B3dmReader.RtcDependsOnEvaluationOrder | B3dmReader.RtcFromArray |
| src/3d/framegraph/qgsshadowrenderingframegraph.cpp:473-476 | `setSize` dereferences every value of the registry, while lookups of unknown names insert null entries through `QMap::operator[]` | `renderView("x")` for an unregistered "x", then `setSize` | skip null entries, or look up without inserting | not executed | FrameGraph.LookupBreaksSetSize | FrameGraph.QgsShadowRenderingFrameGraph.SetSizeSkippingNull |
