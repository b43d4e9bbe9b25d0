# hsm points and vectors, modelled in Dafny

This project models the point and vector algebra of the `hsm` header-only geometry
library, for integer coordinates (`Point2<int>`, `Point3<int>`, `Vector2<int>`,
`Vector3<int>`). The coordinates are Dafny's unbounded `int`.

- `numeric.dfy` (module `Numeric`): `isNaN` at the integer type, which is always false.
- `vectors.dfy` (module `Vectors`): `Vector2` and `Vector3` as records. The default
  constructors are `ZeroVector2` and `ZeroVector3`.
- `points2.dfy` (module `Points2`) and `points3.dfy` (module `Points3`): each point type is
  modelled twice.
  - The value side is a datatype. The `const` operators are functions on it: `==`, `!=`,
    unary `-`, `const operator[]`, point + vector, point − vector, point − point and
    `* n` with an integer scalar. `hasNaN` is included too.
  - The object side is a class (`MutablePoint2`, `MutablePoint3`) with the fields `x`,
    `y` (and `z`). Its methods `modifies this` and model `operator=`, `+=`, `-=`, `*=`
    and writing through the non-`const` `operator[]`. Each one that returns `*this`
    returns the object itself (`self == this`).
  - Each compound assignment is specified by the binary operator it mirrors:
    `Value() == Add(old(Value()), v)` and so on.
  - The lemmas state the laws of the algebra:
    - subtracting a vector undoes adding it;
    - the displacement round trip `p + (q - p) == q`;
    - the displacement between two points is unique;
    - negation is an involution;
    - scaling twice is scaling by the product;
    - a point is determined by its indexed components.

## Model

| member | source | states |
|---|---|---|
| `Points2.HasNaN` | src/hsm.hpp:51-53 | an integer point never has a NaN component, since `isNaN<int>` (src/hsm.hpp:27-28, `Numeric.IsNaN`) is false for each one |
| `Points2.Eq` | src/hsm.hpp:61-63 | `==` holds exactly when the two points are the same value |
| `Points2.Ne` | src/hsm.hpp:65-67 | `!=` holds exactly when `==` does not |
| `Points2.Neg` | src/hsm.hpp:69-71 | unary minus is scaling by −1 |
| `Points2.NegInvolution` | src/hsm.hpp:69-71 | `-(-p) == p` |
| `Points2.At` | src/hsm.hpp:73-77 | reading requires the index to be 0 or 1; index 0 reads `x`, index 1 reads `y` |
| `Points2.AtDetermines` | src/hsm.hpp:73-77 | two points are equal exactly when they read the same at both admitted indices |
| `Points2.Add` | src/hsm.hpp:85-87 | `p + v` is the point whose displacement from `p` is exactly `v` |
| `Points2.Sub` | src/hsm.hpp:95-97 | `p - v` is the point that `+ v` carries back to `p`, and `p` lies `v` beyond it |
| `Points2.SubUndoesAdd` | src/hsm.hpp:85-97 | `(p + v) - v == p` |
| `Points2.AddDiffRoundTrip` | src/hsm.hpp:105-107 | displacement round trip `p + (q - p) == q` |
| `Points2.DisplacementUnique` | src/hsm.hpp:105-107 | some vector carries `p` to `q`, and every such vector equals `q - p` |
| `Points2.Mul` | src/hsm.hpp:109-112 | `p * 0` is the origin and `p * 1 == p` |
| `Points2.MulCompose` | src/hsm.hpp:109-119 | `(p * m) * n == p * (m * n)` |
| `Points2.DiffFromOrigin` | src/hsm.hpp:36 | the default point is the origin: `p - Point2()` has `p`'s coordinates |
| `Points2.AddZeroVector` | src/hsm.hpp:278 | the default vector is the zero displacement: `p + Vector2() == p` |
| `Points2.MutablePoint2.constructor` | src/hsm.hpp:36 | a default-constructed point is the origin |
| `Points2.MutablePoint2.FromCoords` | src/hsm.hpp:37 | the component constructor holds the given coordinates |
| `Points2.MutablePoint2.Assign` | src/hsm.hpp:55-59 | after `operator=` the object holds the assigned value; returns the object itself |
| `Points2.MutablePoint2.AddAssign` | src/hsm.hpp:89-93 | after `+=` the object holds `old value + v`; returns the object itself |
| `Points2.MutablePoint2.SubAssign` | src/hsm.hpp:99-103 | after `-=` the object holds `old value - v`; returns the object itself |
| `Points2.MutablePoint2.MulAssign` | src/hsm.hpp:114-119 | after `*=` the object holds `old value * n`; returns the object itself |
| `Points2.MutablePoint2.SetAt` | src/hsm.hpp:79-83 | writing through `p[i]` (index 0 or 1) sets the selected component, which then reads back as the written value; the other component is unchanged |
| `Points3.HasNaN` | src/hsm.hpp:170-172 | an integer point never has a NaN component, since `isNaN<int>` (src/hsm.hpp:27-28, `Numeric.IsNaN`) is false for each one |
| `Points3.Eq` | src/hsm.hpp:181-183 | `==` holds exactly when the two points are the same value |
| `Points3.Ne` | src/hsm.hpp:185-187 | `!=` holds exactly when `==` does not |
| `Points3.Neg` | src/hsm.hpp:189-191 | unary minus is scaling by −1 |
| `Points3.NegInvolution` | src/hsm.hpp:189-191 | `-(-p) == p` |
| `Points3.At` | src/hsm.hpp:193-198 | reading requires `0 <= i <= 3`; index 0 reads `x`, index 1 reads `y`, indices 2 and 3 read `z` |
| `Points3.AtThreeAliasesTwo` | src/hsm.hpp:194 | the admitted index 3 reads the same component as index 2, which is `z` |
| `Points3.Coord` | src/hsm.hpp:193-198 | indexing bounded by `0 <= i < 3` agrees with `At` on every index it admits |
| `Points3.CoordIndicesDistinct` | src/hsm.hpp:193-198 | under the bound `0 <= i < 3`, two different indices never read the same component for every point |
| `Points3.CoordDetermines` | src/hsm.hpp:193-198 | two points are equal exactly when they read the same at indices 0, 1 and 2 |
| `Points3.Add` | src/hsm.hpp:207-209 | `p + v` is the point whose displacement from `p` is exactly `v` |
| `Points3.Sub` | src/hsm.hpp:218-220 | `p - v` is the point that `+ v` carries back to `p`, and `p` lies `v` beyond it |
| `Points3.SubUndoesAdd` | src/hsm.hpp:207-220 | `(p + v) - v == p` |
| `Points3.AddDiffRoundTrip` | src/hsm.hpp:229-231 | displacement round trip `p + (q - p) == q` |
| `Points3.DisplacementUnique` | src/hsm.hpp:229-231 | some vector carries `p` to `q`, and every such vector equals `q - p` |
| `Points3.Mul` | src/hsm.hpp:233-236 | `p * 0` is the origin and `p * 1 == p` |
| `Points3.MulCompose` | src/hsm.hpp:233-244 | `(p * m) * n == p * (m * n)` |
| `Points3.DiffFromOrigin` | src/hsm.hpp:153 | the default point is the origin: `p - Point3()` has `p`'s coordinates |
| `Points3.AddZeroVector` | src/hsm.hpp:290 | the default vector is the zero displacement: `p + Vector3() == p` |
| `Points3.MutablePoint3.constructor` | src/hsm.hpp:153 | a default-constructed point is the origin |
| `Points3.MutablePoint3.FromCoords` | src/hsm.hpp:154 | the component constructor holds the given coordinates |
| `Points3.MutablePoint3.Assign` | src/hsm.hpp:174-179 | after `operator=` the object holds the assigned value; returns the object itself |
| `Points3.MutablePoint3.AddAssign` | src/hsm.hpp:211-216 | after `+=` the object holds `old value + v`; returns the object itself |
| `Points3.MutablePoint3.SubAssign` | src/hsm.hpp:222-227 | after `-=` the object holds `old value - v`; returns the object itself |
| `Points3.MutablePoint3.MulAssign` | src/hsm.hpp:238-244 | after `*=` the object holds `old value * n`; returns the object itself |
| `Points3.MutablePoint3.SetAt` | src/hsm.hpp:200-205 | writing through `p[i]` (`0 <= i <= 3`, index 3 writes `z`) sets the selected component, which then reads back as the written value; the others are unchanged |
| `Points3.MutablePoint3.SetCoord` | src/hsm.hpp:200-205 | writing through `p[i]` with the bound `0 <= i < 3` makes index `i` read back as the written value, and every other index reads what it read before |

## Left out

- Integer overflow: C++ `int` overflow is undefined behaviour. The model uses unbounded integers, so every law above holds only while the source's arithmetic stays in range.
- Scalar division `/` and `/=` (src/hsm.hpp:121-135, src/hsm.hpp:246-261): these multiply by a floating-point reciprocal and truncate back to the coordinate type. That is floating-point arithmetic, which is not modelled.
- `isNaN` for floating types, the `Float`/`USE_DOUBLE` width switch, and the constants `Sqrt2`, `Pi` and `InvPi` (src/hsm.hpp:12-26): all floating point.
- The explicit conversion constructors from a point or vector of another component type (src/hsm.hpp:39-49, src/hsm.hpp:156-168): these are numeric casts, such as float-to-int truncation.
- Scalar multiplication by a non-integer scalar (`p * 1.23`): only an `int` scalar is modelled.
- `operator<<` printing (src/hsm.hpp:141-145, src/hsm.hpp:267-271): output only.
- src/main.cpp: a demonstration driver that prints values. It has no logic.
- The non-`const` `operator[]` returns a reference to a field. The model captures reads and writes made through that reference immediately (`At` and `SetAt`). It does not capture a reference that is kept and used later.
- The assignment operators return `*this` by reference. The model returns the object itself, so chained calls are modelled as successive calls on the same object.
- Matrices, transforms, dot and cross products, lengths, normalisation, interpolation, rounding and distance are not part of this model. They are not defined in src/hsm.hpp.
- A failing index bound is modelled as a precondition, as the source's `assert` makes it. No recoverable error is modelled. Scalar division, the one operation that can divide by zero, is left out above.

## Findings

| source | as written | input that shows it | evidently intended | confidence | as-written member | corrected member |
|---|---|---|---|---|---|---|
| src/hsm.hpp:194 | the bound on the `const` `Point3` index admits 0, 1, 2 and 3 | `p[3]` passes the bound and reads `z`, the same component as `p[2]` | the bound `0 <= i <= 2`: one index per component, as `Point2` bounds its index to exactly 0 and 1 (src/hsm.hpp:74) | high; not executed | `Points3.AtThreeAliasesTwo` | `Points3.CoordIndicesDistinct` |
| src/hsm.hpp:201 | the bound on the non-`const` `Point3` index admits 0, 1, 2 and 3 | `p[3] = t` passes the bound and overwrites `z`, the component `p[2] = t` writes | the bound `0 <= i <= 2`, so that each write reaches the one component its index names | high; not executed | `Points3.MutablePoint3.SetAt` | `Points3.MutablePoint3.SetCoord` |

The as-written bound is kept by `Points3.At` and `Points3.MutablePoint3.SetAt`, because they model the source as it stands. `Points3.Coord` and `Points3.MutablePoint3.SetCoord` read and write with the intended bound. `Coord` agrees with `At` on every index it admits, and `CoordIndicesDistinct` and `CoordDetermines` are proved about it. `SetCoord` changes exactly the component its index names.
