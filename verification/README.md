# CinMath in Dafny

A model of the algebra of CinMath, a header-only C++ library of fixed-size
linear-algebra value types. Scalars are Dafny `real`s. Every vector, matrix
and quaternion is a flat `seq<real>`, which is the array `raw` behind the
library's unions. The angle types and the literal proxies are small
datatypes that wrap one `real`.

- `Elementwise` holds the kernels all value types share:
  - broadcast and zero construction;
  - `+ - * /` against a value of the same shape or against a scalar;
  - unary `+` and `-`, `==` and `!=`;
  - a write through `operator[]`;
  - the in-place compound assignments.
- `Vectors` covers `Vector<2>`, `Vector<3>` and `Vector<4>`:
  - the constructors, and the aliases `x y z w`, `u v`, `r g b a`;
  - precision conversion;
  - `Dot`, `Length`, `Normalize` and `Cross`.
- `Swizzles` covers the nine declared swizzle members. Each is a fixed list of
  source cells, which is read as a shorter vector and written back by scattering.
- `Matrices` covers `Matrix<2,2>`, `Matrix<3,3>` and `Matrix<4,4>`:
  - row-major storage, where alias `m<i><j>` is `raw[(i-1)*N + (j-1)]`;
  - the constructors and `Identity()`;
  - `operator*`, `*=` and `Transpose`;
  - matrix × vector and vector × matrix;
  - the orthographic projection.
- `Cofactors` and `Determinants` cover `Determinant`, the adjugate and `Inverse`:
  - The determinant is the Leibniz polynomial.
  - `Inverse` is the adjugate divided by the determinant.
  - It is proved to be a two-sided inverse.
- `Quaternions` covers `QuaternionBase`:
  - the `a b c d` and `scalar` + `vector` views of one array;
  - the constructors and the `Vector4` conversion;
  - the Hamilton product.
- `Angles` covers `TRadians`, `TDegrees`, `TAngle` and the literal proxies:
  - the conversions by the factors 180/π and π/180, with π the library's 32-digit `Constants::PI`;
  - the nine cross-unit comparisons.
- `Configuration` covers the instruction-set bit lattice and the order in which the
  build options are tried. It also covers the storage-layout selection, which
  returns `Option<Layout>`, and `Constants::Factorial` in a 32- or 64-bit
  `std::size_t`.

The headers declare the operators; their definitions live in the `*.inl`
files that `CinMath.h` includes and in `Transform.h`, and those files are not
part of this model. Each kernel here is the standard formula for its
operation, and each is checked against the values that `TestSuite/main.cpp`
tests for it. Two conventions go beyond those values and are inferred:
the w of a 4-vector cross product for operands whose w is not zero, and the
cells that hold the orthographic projection's translations (the only
fixture has zero translations). Both are listed under "Left out".

Orientation of the matrix products. The unit tests
(`UnitTests/src/UnitTests.cpp`) copy one float array into a CinMath matrix
and into a column-major reference library. They then require the two
results of `*`, `*=`, `Matrix4 * Vector4` and `Vector4 * Matrix4` to be the
same bytes. Read through the row-major aliases `m<i><j>`, that makes the
library's product (`Matrices.Multiply`) the row-by-column product of the
operands in the reverse order. Equivalently, read column-major (transposed),
it is the product of the operands in their written order. In the same
reading, `Matrix4 * Vector4` dots each column with the vector. The model
therefore puts the orthographic translations at `raw[12]` and `raw[13]`, where
a column-major translation belongs; this placement is inferred, since no test
fixes it. The squaring fixtures of the test suite hold in either order.

Two choices the model makes:
- The storage selection has no branch for ARM, NEON or bare x86 masks, so
  `SelectLayout` returns `None` for them. Here the code decides.
- `Matrix3.h` declares no `==`/`!=` or precision conversion of its own, so
  the code leaves them open. The model follows the tests
  (TestSuite/main.cpp:1284-1318), which compare 3x3 matrices cell by cell,
  and uses the generic `Elementwise.Equal` for every shape.

## Model

| member | source | states |
|---|---|---|
| Elementwise.Zero | CinMath/include/CinMath/Vector2.h:10-14 | the default constructor is the broadcast of 0: every cell zero |
| Elementwise.Broadcast | CinMath/include/CinMath/Vector2.h:16-21 | the one-value constructor gives `n` cells, each equal to the value |
| Elementwise.Combine | CinMath/include/CinMath/Vector2.h:84-87 | a binary operator between values of one shape keeps the shape and combines cell i of the left with cell i of the right |
| Elementwise.CombineScalar | CinMath/include/CinMath/Vector2.h:89-92 | the scalar form keeps the shape and combines every cell with the scalar |
| Elementwise.Negate | CinMath/include/CinMath/Vector2.h:72 | unary minus equals zero minus the value, cell by cell |
| Elementwise.UnaryPlus | CinMath/include/CinMath/Vector2.h:71 | unary plus equals the value plus zero, i.e. the value unchanged |
| Elementwise.Equal | CinMath/include/CinMath/Vector2.h:51-54 | the conjunction of the cell comparisons holds exactly when the two values are identical |
| Elementwise.NotEqual | CinMath/include/CinMath/Vector2.h:56-59 | the disjunction of cell differences is exactly the negation of `==` |
| Elementwise.WithCell | CinMath/include/CinMath/Vector2.h:41-44 | a write through `operator[]` sets that cell and leaves every other cell as it was |
| Elementwise.ChangingOneCellBreaksEquality | TestSuite/main.cpp:411-417 | overwriting one cell makes `!=` true exactly when the new value differs from the old |
| Elementwise.ScalarFormIsBroadcast | CinMath/include/CinMath/Vector2.h:79-92 | every scalar operator equals the vector operator against the broadcast of the scalar |
| Elementwise.SubtractUndoesAdd | CinMath/include/CinMath/Vector3.h:88-89 | (a + b) - b == a for every pair of same-shape values |
| Elementwise.DivideUndoesMultiply | CinMath/include/CinMath/Vector3.h:90-91 | (a * b) / b == a when no cell of b is zero |
| Elementwise.PlusAndTimesCommute | CinMath/include/CinMath/Vector4.h:92-94 | element-wise `+` and `*` do not depend on operand order |
| Elementwise.NegateInvolution | CinMath/include/CinMath/Vector4.h:80 | -(-v) == v |
| Elementwise.CompoundAssign | CinMath/include/CinMath/Vector4.h:82-85 | the in-place loop over the cells leaves exactly the value of the binary operator |
| Elementwise.CompoundAssignScalar | CinMath/include/CinMath/Vector4.h:87-90 | the in-place scalar compound assignment leaves exactly the value of the binary scalar operator |
| Elementwise.DivisionIsReciprocalScaling | CinMath/include/CinMath/Quaternion.h:71 | dividing every cell by d equals multiplying every cell by 1/d |
| Vectors.Vec2 | CinMath/include/CinMath/Vector2.h:23-29 | the two-value constructor gives a 2-vector whose x and y are the arguments in order |
| Vectors.Vec3 | CinMath/include/CinMath/Vector3.h:25-33 | the three-value constructor sets x, y, z in order |
| Vectors.Vec4 | CinMath/include/CinMath/Vector4.h:27-37 | the four-value constructor sets x, y, z, w in order |
| Vectors.BroadcastIsPerComponent | CinMath/include/CinMath/Vector3.h:17-33 | the one-value constructor equals the per-component constructor with all arguments equal, for each length |
| Vectors.U | CinMath/include/CinMath/Vector2.h:106-114 | `u` is the cell of `x` and of index 0 |
| Vectors.V | CinMath/include/CinMath/Vector2.h:106-114 | `v` is the cell of `y` and of index 1 |
| Vectors.R | CinMath/include/CinMath/Vector3.h:110-118 | `r` is the cell of `x` and of index 0 |
| Vectors.G | CinMath/include/CinMath/Vector3.h:110-118 | `g` is the cell of `y` and of index 1 |
| Vectors.B | CinMath/include/CinMath/Vector3.h:110-118 | `b` is the cell of `z` and of index 2 |
| Vectors.A | CinMath/include/CinMath/Vector4.h:116-124 | `a` is the cell of `w` and of index 3 |
| Vectors.WriteIsVisibleThroughAliases | CinMath/include/CinMath/Vector2.h:41-118 | a write to index 0 is read back through `x`, `u` and `r`, and `y` does not move |
| Vectors.ConvertPrecision | CinMath/include/CinMath/Vector2.h:61-69 | the float/double conversion maps each component on its own and, over the reals, returns the same vector |
| Vectors.Dot | TestSuite/main.cpp:2959-2984 | `Dot` is the sum of the component products; its contract-bearing partners are `DotExpanded`, `DotSymmetric`, `DotScaleLeft` and `DotSelfNonNegative` |
| Vectors.DotExpanded | TestSuite/main.cpp:2959-2984 | the dot product is the sum of the component products, written out for lengths 2, 3 and 4 |
| Vectors.DotSymmetric | TestSuite/main.cpp:2959-2984 | Dot(a, b) == Dot(b, a) |
| Vectors.DotSelfNonNegative | TestSuite/main.cpp:2914-2934 | a vector dotted with itself is never negative |
| Vectors.DotSelfZeroOnlyForZero | TestSuite/main.cpp:2914-2934 | a vector dotted with itself is zero exactly when the vector is zero |
| Vectors.DotScaleLeft | TestSuite/main.cpp:2959-2984 | scaling one operand by c scales the dot product by c |
| Vectors.IsLength | TestSuite/main.cpp:2914-2934 | `Length(v)` is the non-negative number whose square is `Dot(v, v)`; `LengthIsUnique` shows there is at most one |
| Vectors.LengthIsUnique | TestSuite/main.cpp:2914-2934 | at most one non-negative value squares to Dot(v, v), so `Length` is well defined |
| Vectors.Normalize | TestSuite/main.cpp:2935-2958 | the result has length 1 and, scaled back by the length, gives the original vector |
| Vectors.Cross | TestSuite/main.cpp:2985-2992 | the 3D cross product gives a 3-vector; its partners `CrossIsOrthogonal` and `CrossAnticommutes` state what it means |
| Vectors.Cross4 | TestSuite/main.cpp:2993-3000 | the 4-vector cross product is the cross product of the x, y, z parts with w set to 0; its partner `Cross4IsOrthogonalAndAnticommutes` states what it means |
| Vectors.Cross4IsOrthogonalAndAnticommutes | TestSuite/main.cpp:2993-3000 | for all 4-vectors a and b, Cross4(a, b) is perpendicular to both a and b (4-component dot product 0) and equals -Cross4(b, a) |
| Vectors.CrossIsOrthogonal | TestSuite/main.cpp:2985-2992 | the cross product is perpendicular to both operands |
| Vectors.CrossAnticommutes | TestSuite/main.cpp:2985-2992 | Cross(a, b) == -Cross(b, a) |
| Vectors.DotFixtures | TestSuite/main.cpp:2959-2984 | the checked dot products 25, 35 and 115 |
| Vectors.LengthFixtures | TestSuite/main.cpp:2914-2934 | lengths 5, 13 and 10 of the checked vectors, and no other value |
| Vectors.NormalizeFixtures | TestSuite/main.cpp:2935-2958 | the checked vectors divided by 5, 13 and 10 |
| Vectors.CrossFixtures | TestSuite/main.cpp:2985-3000 | (2,2,1) × (1,-2,0) == (2,1,-6), and with w = 0 the 4-vector form gives (2,1,-6,0) |
| Swizzles.DeclaredSwizzlesAreWellFormed | CinMath/include/CinMath/Vector4.h:127-141 | every declared swizzle lists strictly increasing cells inside its vector, so none names a cell twice |
| Swizzles.Read | CinMath/include/CinMath/Vector3.h:121-127 | reading a swizzle gives its listed cells in order |
| Swizzles.Write | CinMath/include/CinMath/Vector4.h:127-141 | assigning a swizzle sets exactly its listed cells to the new value's components and leaves every other cell |
| Swizzles.CompoundScalar | Examples/src/Example.cpp:11-12 | `v.xy op= s` applies the operator to the listed cells only |
| Swizzles.Compound | CinMath/include/CinMath/Vector4.h:127-141 | a compound assignment through a swizzle with a vector operand applies the operator cell by cell to the listed cells only |
| Swizzles.ReadAfterWrite | CinMath/include/CinMath/Vector4.h:127-141 | reading a swizzle right after assigning it gives the assigned value |
| Swizzles.WriteAfterRead | CinMath/include/CinMath/Vector4.h:127-141 | assigning a swizzle its own value changes nothing |
| Swizzles.FullSwizzleIsWholeVector | CinMath/include/CinMath/Vector4.h:141 | `xyzw` reads the whole vector and assigning it replaces the whole vector |
| Swizzles.ReadFixtures | TestSuite/main.cpp:824-855 | each declared swizzle of (1,2,3,4) reads the components it names |
| Swizzles.ExampleFixture | Examples/src/Example.cpp:8-12 | zero vector, then `xyzw = 1`, then `xy *= 2` gives (2,2,1,1) |
| Matrices.Offset | CinMath/include/CinMath/Matrix2.h:135-151 | cell (i, j) lives at a unique index below N*N, with row i = index / N and column j = index % N |
| Matrices.CellsDetermineMatrix | CinMath/include/CinMath/Matrix3.h:125-143 | two matrices that agree under every `m<i><j>` alias are the same array |
| Matrices.ZeroMatrix | CinMath/include/CinMath/Matrix2.h:10-16 | the default constructor makes every cell zero |
| Matrices.Diagonal | CinMath/include/CinMath/Matrix2.h:26-32 | the one-value constructor puts the value on the diagonal and zero elsewhere |
| Matrices.Identity | CinMath/include/CinMath/Matrix2.h:154-158 | `Identity()` has ones on the diagonal and zeros elsewhere |
| Matrices.FromRowMajor | CinMath/include/CinMath/Matrix4.h:70-124 | argument k of the per-element and array constructors lands in row k / N, column k % N |
| Matrices.DiagonalSpecialCases | CinMath/include/CinMath/Matrix4.h:280-284 | `Identity()` equals the one-value constructor with 1, and the default constructor equals it with 0 |
| Matrices.RowMajorFixtures | CinMath/include/CinMath/Matrix2.h:34-52 | `m12` is the second argument, `m21` the third, `m22` the fourth |
| Matrices.EqualityIsCellwise | CinMath/include/CinMath/Matrix4.h:146-188 | `==` holds exactly when every alias agrees |
| Matrices.ChangingAnyCellBreaksEquality | TestSuite/main.cpp:908-919 | writing a different value into any single cell makes `!=` true |
| Matrices.ScalarOperatorsTouchEveryCell | CinMath/include/CinMath/Matrix2.h:121-133 | scalar operators reach every cell; adding s to zero gives the diagonal matrix of s only when s is 0 |
| Matrices.Multiply | UnitTests/src/UnitTests.cpp:668-673 | `operator*` between matrices, read column-major (transposed), is the row-by-column product of the transposed operands in their written order, as the byte comparison with a column-major library requires |
| Matrices.MultiplyAssign | UnitTests/src/UnitTests.cpp:1093-1102 | the in-place `*=`, computed cell by cell, leaves the value of `*` |
| Matrices.AccumulateDot | TestSuite/main.cpp:1086-1113 | accumulating one cell term by term, as the loop inside `*=` does, yields the row dotted with the column |
| Matrices.IdentityIsNeutral | CinMath/include/CinMath/Matrix4.h:280-284 | `Identity()` is neutral for `*` on both sides |
| Matrices.Transpose | TestSuite/main.cpp:3001-3062 | cell (i, j) of the transpose is cell (j, i) of the argument, and it keeps the shape; `TransposeInvolution` is its partner |
| Matrices.TransposeInvolution | TestSuite/main.cpp:3001-3062 | transposing twice gives the original matrix |
| Matrices.DiagonalIsSymmetric | CinMath/include/CinMath/Matrix2.h:26-32 | the one-value constructor, and so `Identity()`, is its own transpose |
| Matrices.TransposeOfProduct | CinMath/include/CinMath/Matrix3.h:118 | the transpose of a product is the product of the transposes in reverse order |
| Matrices.MultiplyScales | CinMath/include/CinMath/Matrix3.h:118-122 | scaling either factor of `*` by s scales the result by s |
| Matrices.ProductScalesRight | CinMath/include/CinMath/Matrix3.h:118-122 | scaling the right factor by s scales the product by s |
| Matrices.ProductScalesLeft | CinMath/include/CinMath/Matrix3.h:118-122 | scaling the left factor by s scales the product by s |
| Matrices.SquareFixture2 | TestSuite/main.cpp:961-985 | [[1,2],[3,4]] squared by `*` is [[7,10],[15,22]] |
| Matrices.SquareFixture3 | TestSuite/main.cpp:1430-1457 | [[1,2,3],[4,5,6],[7,8,9]] squared by `*` matches the expected matrix |
| Matrices.SquareFixture4 | TestSuite/main.cpp:1982-2014 | the 4x4 matrix 1..16 squared by `*` is [90,100,110,120, 202,228,254,280, 314,356,398,440, 426,484,542,600] |
| Matrices.TransposeFixtures | TestSuite/main.cpp:3001-3062 | the checked 2x2, 3x3 and 4x4 transposes: the matrix whose cell ij holds ij transposes to the one whose cell ij holds ji |
| Matrices.MulVec | UnitTests/src/UnitTests.cpp:1169-1175 | `Matrix4 * Vector4` in the column-major reading fixed by the byte comparison: component i is column i of the array dotted with the vector; `MulVecComposes` is its partner |
| Matrices.VecMul | UnitTests/src/UnitTests.cpp:1176-1182 | `Vector4 * Matrix4` in the same reading: component j is the vector dotted with row j of the array; `VecMulIsTransposedMulVec` is its partner |
| Matrices.VecMulIsTransposedMulVec | CinMath/include/CinMath/Vector4.h:102 | vector × matrix equals transposed matrix × vector |
| Matrices.IdentityFixesVectors | CinMath/include/CinMath/Matrix4.h:257 | `Identity()` leaves a 4-vector unchanged from either side |
| Matrices.MulVecComposes | CinMath/include/CinMath/Matrix4.h:250-257 | `Matrix4 * Vector4` agrees with `*` between matrices: (a * b) * v == a * (b * v) |
| Matrices.OrthographicProjection | TestSuite/main.cpp:3160-3177 | the diagonal scales by 2/(right-left) and 2/(top-bottom), flips z, and keeps w; the other cells are zero except the x and y translations, placed at raw[12] and raw[13] (an inferred placement, see Left out) |
| Matrices.OrthographicMapsBoxToUnitSquare | TestSuite/main.cpp:3160-3177 | the projection sends the box corners (left, bottom) and (right, top) to (-1, -1) and (1, 1), negating z |
| Matrices.OrthographicFixture | TestSuite/main.cpp:3160-3177 | OrthographicProjection(-2, 2, -1, 1) is diag(0.5, 1, -1, 1) |
| Cofactors.Det2 | TestSuite/main.cpp:3087-3096 | the order-2 determinant polynomial; `RepeatedRowsVanish` and `Det2OfTranspose` are its partners |
| Cofactors.Det3 | TestSuite/main.cpp:3076-3086 | the order-3 Leibniz polynomial; `RepeatedRowsVanish`, `Det3OfTranspose` and the row expansions are its partners |
| Cofactors.Det4 | TestSuite/main.cpp:3064-3075 | the order-4 Leibniz polynomial; `RepeatedRowsVanish`, `Det4OfTranspose` and the row expansions are its partners |
| Cofactors.RepeatedRowsVanish | TestSuite/main.cpp:3063-3095 | each determinant polynomial vanishes when any two of its rows are equal |
| Determinants.Determinant | TestSuite/main.cpp:3063-3095 | `Determinant` of a 2x2, 3x3 or 4x4 matrix is the Leibniz polynomial of its rows; `MatrixTimesAdjugate` and `DeterminantOfTranspose` are its partners |
| Determinants.Adjugate | TestSuite/main.cpp:3097-3157 | the transposed matrix of cofactors, of the same shape; `MatrixTimesAdjugate` and `AdjugateOfTranspose` are its partners |
| Determinants.RowTimesAdjugate | TestSuite/main.cpp:3097-3157 | row i dotted with adjugate column j is the determinant when i == j and zero otherwise |
| Determinants.MatrixTimesAdjugate | TestSuite/main.cpp:3097-3157 | a matrix times its adjugate is the determinant times the identity |
| Determinants.AdjugateTimesMatrix | TestSuite/main.cpp:3097-3157 | the adjugate times the matrix is the determinant times the identity |
| Determinants.DeterminantOfTranspose | TestSuite/main.cpp:3063-3095 | a matrix and its transpose have the same determinant |
| Determinants.AdjugateOfTranspose | TestSuite/main.cpp:3097-3157 | the adjugate of the transpose is the transpose of the adjugate |
| Determinants.ScaledDiagonal | CinMath/include/CinMath/Matrix2.h:132 | scaling the diagonal matrix of s by c gives the diagonal matrix of s*c |
| Determinants.ScaledAdjugateInverts | TestSuite/main.cpp:3097-3157 | the adjugate divided by a non-zero determinant is a left and a right inverse |
| Determinants.Inverse | TestSuite/main.cpp:3097-3157 | for a non-zero determinant, the result times the matrix and the matrix times the result are both `Identity()` |
| Determinants.IdentityDeterminantAndInverse | CinMath/include/CinMath/Matrix4.h:280-284 | `Identity()` has determinant 1 and is its own inverse |
| Determinants.DeterminantFixtures | TestSuite/main.cpp:3063-3095 | the checked determinants 9, 9 and 3 for orders 4, 3 and 2 |
| Determinants.InverseFixtures | TestSuite/main.cpp:3097-3157 | the checked inverses: determinants -10, 26, 226 and the inverses scaled by them |
| Quaternions.Scalar | CinMath/include/CinMath/Quaternion.h:94-98 | `scalar` overlays `a` |
| Quaternions.VectorPart | CinMath/include/CinMath/Quaternion.h:94-98 | `vector` is the 3-vector (b, c, d) |
| Quaternions.DefaultQuaternion | CinMath/include/CinMath/Quaternion.h:6-12 | the default constructor gives four zero components |
| Quaternions.FromComponents | CinMath/include/CinMath/Quaternion.h:14-24 | the four-value constructor sets a, b, c, d in order |
| Quaternions.FromScalarAndVector | CinMath/include/CinMath/Quaternion.h:26-32 | the scalar+vector constructor gives `scalar` the scalar and `vector` the vector |
| Quaternions.ViewsAgree | CinMath/include/CinMath/Quaternion.h:73-99 | the two views name the same cells: either constructor can be written as the other, and taking a quaternion apart through either view and rebuilding it gives it back |
| Quaternions.ToVector4 | CinMath/include/CinMath/Quaternion.h:54-60 | the `Vector4` conversion has x, y, z, w equal to a, b, c, d |
| Quaternions.Multiply | CinMath/include/CinMath/Quaternion.h:67 | the Hamilton product of two quaternions is a quaternion; `ScalarVectorForm`, `UnitTable` and `MultiplyAssociative` state what it is |
| Quaternions.ScalarVectorForm | CinMath/include/CinMath/Quaternion.h:67 | the product is (s1 s2 - v1·v2, s1 v2 + s2 v1 + v1 × v2) in the scalar+vector view |
| Quaternions.OneIsNeutral | CinMath/include/CinMath/Quaternion.h:67 | (1, 0, 0, 0) is neutral for the product on both sides |
| Quaternions.UnitTable | CinMath/include/CinMath/Quaternion.h:67 | i² = j² = k² = -1, ij = k, jk = i, ki = j, and reversing two different units negates the product |
| Quaternions.MultiplyAssociative | CinMath/include/CinMath/Quaternion.h:67 | (pq)r == p(qr) |
| Quaternions.NormIsMultiplicative | CinMath/include/CinMath/Quaternion.h:67 | the squared norm of a product is the product of the squared norms |
| Quaternions.ScalarsAreCentral | CinMath/include/CinMath/Quaternion.h:70 | multiplying by the real quaternion (s, 0, 0, 0) on either side is the scalar `*` |
| Quaternions.ScalarDivision | CinMath/include/CinMath/Quaternion.h:71 | the scalar `/` multiplies by (1/s, 0, 0, 0), and scaling back by s restores the quaternion |
| Quaternions.ConstructorFixtures | TestSuite/main.cpp:2711-2782 | the checked constructor and `Vector4` conversion values |
| Quaternions.ArithmeticFixtures | TestSuite/main.cpp:2801-2900 | the checked unary, `+`, `-` and scalar `/` values, and (1,2,3,4)(5,6,7,8) == (-60,12,30,24) |
| Angles.ScalarToRadians | TestSuite/main.cpp:2904-2908 | the result times 180 equals the degrees times π |
| Angles.ScalarToDegrees | TestSuite/main.cpp:2909-2913 | the result times π equals the radians times 180 |
| Angles.ConversionsAreInverse | CinMath/include/CinMath/Angle.h:134-137 | the two conversions are inverse bijections: each undoes the other, and each maps x to y exactly when the other maps y to x |
| Angles.ConversionsAreLinear | CinMath/include/CinMath/Angle.h:38-41 | both conversions commute with sums, differences and integer scaling |
| Angles.ScalarConversionFixtures | TestSuite/main.cpp:2904-2913 | 180 degrees is exactly π, and 2π radians is exactly 360 degrees |
| Angles.DefaultRadians | CinMath/include/CinMath/Angle.h:19-22 | a default `TRadians` holds 0 |
| Angles.DefaultDegrees | CinMath/include/CinMath/Angle.h:109-112 | a default `TDegrees` holds 0 |
| Angles.ToDegrees | CinMath/include/CinMath/Angle.h:38-41 | the degrees times π equal the radians times 180 |
| Angles.ToRadians | CinMath/include/CinMath/Angle.h:134-137 | the radians times 180 equal the degrees times π |
| Angles.UnitRoundTrips | CinMath/include/CinMath/Angle.h:38-137 | radians → degrees → radians and degrees → radians → degrees return the original value |
| Angles.DefaultAngle | CinMath/include/CinMath/Angle.h:208-211 | a default `TAngle` is 0 in radians and in degrees |
| Angles.AngleFromRadians | CinMath/include/CinMath/Angle.h:213-216 | an angle built from radians reads back those radians |
| Angles.AngleFromDegrees | CinMath/include/CinMath/Angle.h:218-221 | an angle built from degrees stores their radians and reads the same degrees back |
| Angles.AngleToRadians | CinMath/include/CinMath/Angle.h:226-229 | an angle reads back its stored radians; `AngleFromRadians` and `AngleFromDegrees` are its partners |
| Angles.AngleToDegrees | CinMath/include/CinMath/Angle.h:231-234 | the degrees read from an angle convert back to its stored radians |
| Angles.Equal | CinMath/include/CinMath/Angle.h:44-265 | each of the nine `==` overloads holds exactly when both operands are the same angle, compared in radians or in degrees alike |
| Angles.NotEqual | CinMath/include/CinMath/Angle.h:44-265 | each `!=` overload is the negation of the matching `==` |
| Angles.EqualIsAnEquivalence | CinMath/include/CinMath/Angle.h:237-265 | cross-unit equality is reflexive, symmetric and transitive |
| Angles.AngleEquality | CinMath/include/CinMath/Angle.h:237-265 | two `TAngle`s compare equal exactly when they are the same value, and an angle built from degrees equals those degrees and their radians |
| Angles.RadiansArithmetic | CinMath/include/CinMath/Angle.h:79-82 | `+ - * /` between radians apply the operator to the two values; `ArithmeticAgreesAcrossUnits` is the partner |
| Angles.DegreesArithmetic | CinMath/include/CinMath/Angle.h:175-178 | `+ - * /` between degrees apply the operator to the two values; `ArithmeticAgreesAcrossUnits` is the partner |
| Angles.ArithmeticAgreesAcrossUnits | CinMath/include/CinMath/Angle.h:79-178 | sums and differences converted to degrees equal the sums and differences of the converted operands, and a quotient of two angles is the same number in either unit |
| Angles.Literal | CinMath/include/CinMath/Angle.h:357-365 | `_rad` and `_deg` keep the literal's value and record its unit |
| Angles.IntegerLiteral | CinMath/include/CinMath/Angle.h:367-375 | the integer literal forms are the floating ones applied to the integer's value |
| Angles.ProxyToAngle | CinMath/include/CinMath/Angle.h:305-354 | a radians proxy gives an angle with those radians and a degrees proxy one that reads back those degrees |
| Angles.AddProxies | CinMath/include/CinMath/Angle.h:378-391 | adding two literal proxies of one unit keeps the unit and adds the values; `ProxyArithmeticMatchesUnitArithmetic` is the partner |
| Angles.SubtractProxies | CinMath/include/CinMath/Angle.h:383-396 | subtracting two literal proxies of one unit keeps the unit and subtracts the values; `ProxyScalingInverts` is the partner |
| Angles.ScaleProxy | CinMath/include/CinMath/Angle.h:283-287 | multiplying a proxy by an integer keeps the unit and scales the value; `ProxyScalingInverts` is the partner |
| Angles.DivideProxy | CinMath/include/CinMath/Angle.h:289-293 | dividing a proxy by a non-zero integer keeps the unit and divides the value; `ProxyScalingInverts` is the partner |
| Angles.ProxyArithmeticMatchesUnitArithmetic | CinMath/include/CinMath/Angle.h:378-396 | adding or subtracting proxies and then converting equals converting and then adding or subtracting |
| Angles.ProxyScalingInverts | CinMath/include/CinMath/Angle.h:283-396 | dividing by the integer a proxy was multiplied by restores it; subtracting what was added restores it |
| Angles.ProxyAnglesCompareAcrossUnits | CinMath/include/CinMath/Angle.h:346-354 | an angle from a degrees literal equals one from a radians literal exactly when the degrees convert to those radians |
| Angles.DefaultFixtures | TestSuite/main.cpp:2636-2640 | the checked default values |
| Angles.ProxyFixtures | TestSuite/main.cpp:2357-2412 | 45 + 3, 45 - 3, 45 * 3 and 45 / 3 as proxies and as radians |
| Angles.AngleFixtures | TestSuite/main.cpp:2641-2678 | the checked angle constructions and comparisons |
| Angles.ConversionFixtures | TestSuite/main.cpp:2688-2703 | 45 rad, 1 rad, 90.32° and 360° convert to within 0.001 of the checked values |
| Configuration.InstructionSetLattice | CinMath/include/CinMath/CinMath.h:2-26 | each named set contains the set it extends, all the way down to bare x86; NEON contains ARM; the families are disjoint; the default set is 0 |
| Configuration.Choose | CinMath/include/CinMath/CinMath.h:28-81 | the default-instruction-set option overrides every other option |
| Configuration.Detect | CinMath/include/CinMath/CinMath.h:57-80 | auto-detection falls back to the default set exactly when the compiler defines no target macro, and selects AVX2 exactly when `__AVX2__` is defined |
| Configuration.OptionPrecedence | CinMath/include/CinMath/CinMath.h:28-81 | the first forced option in table order decides and forces intrinsics; `CIN_USE_SSE`, then auto-detection, come after; with no option no set is defined |
| Configuration.EffectiveSet | CinMath/include/CinMath/CinMath.h:183 | an undefined instruction set reads as the default set 0 |
| Configuration.SelectLayout | CinMath/include/CinMath/CinMath.h:183-235 | a layout exists exactly for the default set and for sets with an AVX2, AVX, SSE2 or SSE bit; every layout gives each shape exactly its element count and keeps 2- and 3-vectors and 3x3 matrices as plain arrays |
| Configuration.NamedSetLayouts | CinMath/include/CinMath/CinMath.h:183-235 | AVX and AVX2 store 4x4 matrices in two 256-bit registers; SSE through SSE4.2 use four 128-bit registers; ARM, NEON and bare x86 match no branch |
| Configuration.BuildLayout | CinMath/include/CinMath/CinMath.h:28-235 | the storage of a build always fits its shapes, and with no option or with `CIN_USE_DEFAULT_INSTRUCTION_SET` among the options it is the plain-array layout |
| Configuration.BuildLayoutFixtures | CinMath/include/CinMath/CinMath.h:28-81 | end to end from options: no option gives plain arrays; the default option overrides AVX2; auto-detected NEON has no layout |
| Configuration.VectorStorage | CinMath/include/CinMath/CinMath.h:237-264 | the container holds exactly `length` values, and non-float vectors get the generic plain array |
| Configuration.MatrixStorage | CinMath/include/CinMath/CinMath.h:266-289 | only float 2x2, 3x3 and 4x4 matrices get a container, and it holds rows × columns values |
| Configuration.Factorial | CinMath/include/CinMath/CinMath.h:155-165 | for N > 0 the result is N! reduced modulo 2^32 or 2^64, the width of `std::size_t` |
| Configuration.FactorialWrapsAfterTwenty | CinMath/include/CinMath/CinMath.h:158-165 | with a 64-bit `std::size_t`, 20! is exact and 21! wraps |
| Configuration.FactorialWrapsAfterTwelve | CinMath/include/CinMath/CinMath.h:158-165 | with a 32-bit `std::size_t`, 12! is exact and 13! wraps |
| Configuration.FactorialFixtures | CinMath/include/CinMath/CinMath.h:158-165 | 1! = 1, 3! = 6, 5! = 120 at either width |

## Left out

- IEEE 754 behaviour is not modelled: scalars are exact reals, so rounding, -0.0, NaN and Inf are out of scope. The tests' bitwise comparisons against another library and their 0.001 tolerance are out too; the one exception is that `Angles.ConversionFixtures` states the tolerance explicitly.
- Division by zero is excluded: a divisor of zero has no real value, so `/` requires a non-zero divisor. The library returns IEEE Inf/NaN in that case.
- float versus double: both precisions are the same real type, so precision conversion is the identity.
- The square root is not modelled. `Length` is the relation `Vectors.IsLength` (non-negative and squares to `Dot(v, v)`), and `Normalize` takes the length as an argument.
- Determinants.Inverse: a singular matrix is excluded by the precondition, because the library's result there is Inf/NaN.
- Quaternion ÷ quaternion (Quaternion.h:68) is not modelled. Its definition is in `Quaternion.inl`, which is not part of this model, and the only test of it is disabled.
- Several compound assignments are declared with a `Vector<4>` right operand on 2- and 3-vectors and on matrices (Vector2.h:74-77, Vector3.h:78-81, Matrix2.h:117-119, Matrix3.h:107-109, Matrix4.h:239-241). These are modelled as same-shape compound assignment, which is how the tests use them.
- Union type-punning, `operator ValueType*` and address identity are not modelled. The model has one sequence per value plus accessor functions.
- An out-of-range `operator[]` index is not modelled. It is undefined in the library, so in the model it is excluded by preconditions.
- The `consteval` constructor variants (`ConstevalConstructorProxy`) are not modelled separately: they build the same values as the one-value constructors.
- `TDegrees::operator=(value)` is not a separate member: it replaces the stored value, which is `Degrees(value)`.
- Compound angle operators (`+=` etc. on `TRadians`/`TDegrees`) are not separate members. They assign the value of the binary operator, which is `RadiansArithmetic` or `DegreesArithmetic`.
- Proxy division by the integer 0 is excluded (its IEEE result is Inf/NaN).
- The proxies' narrowing to `float` or `double` is the identity over reals. The parsing of `long double` literals is not modelled.
- The transcendental helpers are not modelled: axis-angle conversion, rotation and the other definitions in `Transform.h`, which is not part of this model.
- SIMD is not modelled: intrinsics, register contents and intrinsic header selection are out. Only the choice of container and its capacity is modelled.
- Compiler-specific macros, `AtCompileTime`, printing (`operator<<`) and the benchmarks are not modelled: they carry no algebra.
- Vectors.Cross4: when an operand's w is not zero, the result's w is still taken to be 0. No test uses such an operand, and the definition is in `Vector4.inl`, which is not part of this model, so this convention is assumed.
- Matrices.OrthographicProjection: the x and y translations are placed at raw[12] and raw[13], inferred from the column-major reading of `Matrix4 * Vector4`. The only fixture has zero translations, and the translate comparison in the unit tests is commented out, so the placement is not confirmed by the library.
- Configuration.Choose: the compiler target macros are given as a set of flags. `Sse2Macro` stands for any of its four spellings and `ArmMacro` for either of its two.
