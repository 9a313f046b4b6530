# hello_triangle linear-algebra core in Dafny

This project models the 3D linear-algebra header of the hello_triangle demo,
`hello_triangle/hello_triangle/math.h`. It covers these parts:

- the `vector3_t` and `vector4_t` value types, with component-wise `+`, `-`
  and `*` (the Hadamard product), scalar `*` and `/`, and the compound
  assignments;
- `normalize` for both arities, and the right-handed `cross`;
- `matrix4_t`, a column-major 4×4 matrix of four `vector4_t` columns, and
  its product `operator*`;
- the constructors `identity`, `look_at`, `perspective` and `m4_rotate`.

Components are Dafny `real`s. The C library calls (`sqrt`, `tan`, `sin`,
`cos`) are function-typed parameters. The only facts assumed about them are
the predicates in `MathLib`:

- `IsSqrt`: a non-negative root whose square is the argument.
- `IsSinCos`: the Pythagorean identity.
- `ExactAtZero`: `sin 0 = 0` and `cos 0 = 1`.

Divisions whose divisor can be zero become preconditions. The header leaves
those cases to IEEE arithmetic.

Modules follow the header's structure:

| module | file | contents |
|---|---|---|
| `MathLib` | `mathlib.dfy` | axioms for the library calls, small real-arithmetic lemmas |
| `Vector3` | `vector3.dfy` | `vector3_t`, `normalize(vector3_t)`, `cross` |
| `Vector4` | `vector4.dfy` | `vector4_t`, `normalize(vector4_t)` |
| `Matrix4` | `matrix4.dfy` | `matrix4_t`, `operator*`, `identity` |
| `Camera` | `camera.dfy` | `look_at`, `perspective` |
| `Rotation` | `rotation.dfy` | `m4_rotate` |

Conventions fixed by the code:

- `Entry(m, row, col)` is `m.col[col].v[row]`.
- Applying a matrix to a vector gives the columns weighted by the vector's
  components, which is the column-vector convention of `operator*`.
- In `look_at` the vector called `direction` is `normalize(position - target)`.
  It points from the target back to the eye, so the camera looks down
  `-direction`.
- The rotation block of `look_at` holds `right`, `real_up` and `direction`
  as its rows.
- `m4_rotate` builds `(r_x * r_y) * r_z`. A vector therefore meets `r_z`
  first, then `r_y`, then `r_x`.
- The x and y factors of `m4_rotate` follow the right-hand rule. The z
  factor puts `-sin` at `col[0].v[1]` and `sin` at `col[1].v[0]`. That is
  the transpose of the right-handed z rotation, so a positive angle turns
  the x axis towards negative y. The model keeps the signs as written (see
  `Rotation.QuarterTurns` and `Rotation.ApplyRotZ`).

## Model

| member | source | states |
|---|---|---|
| Vector3.Add | hello_triangle/hello_triangle/math.h:19 | no contract of its own: `+` is characterised by `Vector3.ComponentWise` and `Vector3.AddSubInverse` |
| Vector3.Sub | hello_triangle/hello_triangle/math.h:20 | no contract of its own: `-` is characterised by `Vector3.ComponentWise` and `Vector3.AddSubInverse` |
| Vector3.Mul | hello_triangle/hello_triangle/math.h:21 | no contract of its own: the Hadamard `*` is characterised by `Vector3.ComponentWise` and `Vector3.HadamardSumsToDot` |
| Vector3.Scale | hello_triangle/hello_triangle/math.h:23 | no contract of its own: scalar `*` is characterised by `Vector3.ComponentWise` and `Vector3.ScaleDivInverse` |
| Vector3.DivScalar | hello_triangle/hello_triangle/math.h:24 | no contract of its own: scalar `/` (non-zero divisor) is characterised by `Vector3.ComponentWise` and `Vector3.ScaleDivInverse` |
| Vector3.ComponentWise | hello_triangle/hello_triangle/math.h:19-24 | at every index, `+`, `-`, `*` act component by component; scalar `*` scales each component; scalar `/` undoes scaling |
| Vector3.AddSubInverse | hello_triangle/hello_triangle/math.h:19-20 | `(a + b) - b == a` |
| Vector3.ScaleDivInverse | hello_triangle/hello_triangle/math.h:23-24 | dividing by a non-zero scalar undoes multiplying by it |
| Vector3.HadamardSumsToDot | hello_triangle/hello_triangle/math.h:21 | vector `*` is the Hadamard product: its components sum to the dot product |
| Vector3.AddAssign | hello_triangle/hello_triangle/math.h:25 | `+=` leaves the receiver equal to `v + o` and returns that value |
| Vector3.SubAssign | hello_triangle/hello_triangle/math.h:26 | `-=` leaves the receiver equal to `v - o` and returns that value |
| Vector3.MulAssign | hello_triangle/hello_triangle/math.h:27 | `*=` (vector) leaves the receiver equal to the Hadamard product and returns it |
| Vector3.DivAssign | hello_triangle/hello_triangle/math.h:28 | `/=` (vector, non-zero components) leaves a receiver whose Hadamard product with `o` is the old value |
| Vector3.ScaleAssign | hello_triangle/hello_triangle/math.h:29 | `*=` (scalar) leaves the receiver equal to `v * s` and returns a copy of it |
| Vector3.DivScalarAssign | hello_triangle/hello_triangle/math.h:30 | `/=` (non-zero scalar) leaves a receiver that scaled by `s` is the old value, and returns a copy of it |
| Vector3.Normalize | hello_triangle/hello_triangle/math.h:59-64 | for a non-zero `v` the result has squared length 1, and scaled by `sqrt(‖v‖²)` it gives back `v` |
| Vector3.NonZeroHasPositiveLength | hello_triangle/hello_triangle/math.h:61 | the squared length is positive exactly when the vector is non-zero, so the divisor in `normalize` is non-zero exactly then |
| Vector3.NormalizeUnit | hello_triangle/hello_triangle/math.h:59-64 | a unit vector is non-zero and normalises to itself |
| Vector3.NormalizeIdempotent | hello_triangle/hello_triangle/math.h:59-64 | normalising twice is normalising once |
| Vector3.NormalizeSameDirection | hello_triangle/hello_triangle/math.h:59-64 | the result is a positive multiple of the input |
| Vector3.NormalizeOrthogonal | hello_triangle/hello_triangle/math.h:59-64 | normalising keeps orthogonality to any vector |
| Vector3.Cross | hello_triangle/hello_triangle/math.h:73-78 | no contract of its own: `cross` is characterised by `Vector3.CrossAnticommutative`, `Vector3.CrossSelfZero`, `Vector3.CrossOrthogonal`, `Vector3.Lagrange` and `Vector3.TripleProduct` |
| Vector3.CrossAnticommutative | hello_triangle/hello_triangle/math.h:73-78 | `cross(a, b) == -cross(b, a)` |
| Vector3.CrossSelfZero | hello_triangle/hello_triangle/math.h:73-78 | `cross(a, a)` is the zero vector |
| Vector3.CrossParallelZero | hello_triangle/hello_triangle/math.h:73-78 | the cross product of parallel vectors is zero |
| Vector3.CrossOrthogonal | hello_triangle/hello_triangle/math.h:73-78 | `cross(a, b)` has zero dot product with both `a` and `b` |
| Vector3.ScalarTripleCyclic | hello_triangle/hello_triangle/math.h:73-78 | `(a × b)·c == (c × a)·b` |
| Vector3.CrossScaleRight | hello_triangle/hello_triangle/math.h:73-78 | scaling the right operand scales the cross product |
| Vector3.CrossNonZeroOperands | hello_triangle/hello_triangle/math.h:73-78 | a non-zero cross product has two non-zero operands |
| Vector3.Lagrange | hello_triangle/hello_triangle/math.h:73-78 | `‖a × b‖² == ‖a‖²‖b‖² - (a·b)²` |
| Vector3.TripleProduct | hello_triangle/hello_triangle/math.h:73-78 | `a × (b × c) == b(a·c) - c(a·b)` |
| Vector4.With | hello_triangle/hello_triangle/math.h:37 | writing `v[i]` changes component `i` to the value and leaves the other three alone |
| Vector4.Add | hello_triangle/hello_triangle/math.h:45 | no contract of its own: `+` is characterised by `Vector4.ComponentWise` and `Vector4.AddSubInverse` |
| Vector4.Sub | hello_triangle/hello_triangle/math.h:46 | no contract of its own: `-` is characterised by `Vector4.ComponentWise` and `Vector4.AddSubInverse` |
| Vector4.Mul | hello_triangle/hello_triangle/math.h:47 | no contract of its own: the Hadamard `*` is characterised by `Vector4.ComponentWise` and `Vector4.HadamardSumsToDot` |
| Vector4.Scale | hello_triangle/hello_triangle/math.h:49 | no contract of its own: scalar `*` is characterised by `Vector4.ComponentWise` and `Vector4.ScaleDivInverse` |
| Vector4.DivScalar | hello_triangle/hello_triangle/math.h:50 | no contract of its own: scalar `/` (non-zero divisor) is characterised by `Vector4.ComponentWise` and `Vector4.ScaleDivInverse` |
| Vector4.ComponentWise | hello_triangle/hello_triangle/math.h:45-50 | at every index, `+`, `-`, `*` act component by component; scalar `*` scales each component; scalar `/` undoes scaling |
| Vector4.AddSubInverse | hello_triangle/hello_triangle/math.h:45-46 | `(a + b) - b == a` |
| Vector4.ScaleDivInverse | hello_triangle/hello_triangle/math.h:49-50 | dividing by a non-zero scalar undoes multiplying by it |
| Vector4.HadamardSumsToDot | hello_triangle/hello_triangle/math.h:47 | vector `*` is the Hadamard product: its components sum to the dot product |
| Vector4.AddAssign | hello_triangle/hello_triangle/math.h:51 | `+=` leaves the receiver equal to `v + o` and returns that value |
| Vector4.SubAssign | hello_triangle/hello_triangle/math.h:52 | `-=` leaves the receiver equal to `v - o` and returns that value |
| Vector4.MulAssign | hello_triangle/hello_triangle/math.h:53 | `*=` (vector) leaves the receiver equal to the Hadamard product and returns it |
| Vector4.DivAssign | hello_triangle/hello_triangle/math.h:54 | `/=` (vector, non-zero components) leaves a receiver whose Hadamard product with `o` is the old value |
| Vector4.ScaleAssign | hello_triangle/hello_triangle/math.h:55 | `*=` (scalar) leaves the receiver equal to `v * s` and returns a copy of it |
| Vector4.DivScalarAssign | hello_triangle/hello_triangle/math.h:56 | `/=` (non-zero scalar) leaves a receiver that scaled by `s` is the old value, and returns a copy of it |
| Vector4.Normalize | hello_triangle/hello_triangle/math.h:66-71 | for a non-zero `v` the result has squared length 1, and scaled by `sqrt(‖v‖²)` it gives back `v` |
| Vector4.NonZeroHasPositiveLength | hello_triangle/hello_triangle/math.h:68 | the squared length is positive exactly when the vector is non-zero |
| Vector4.NormalizeIdempotent | hello_triangle/hello_triangle/math.h:66-71 | normalising twice is normalising once |
| Vector4.Combine | hello_triangle/hello_triangle/math.h:91-94 | no contract of its own: the left-to-right sum `col[0]*w[0] + col[1]*w[1] + col[2]*w[2] + col[3]*w[3]` is characterised by `Vector4.DotCombine` and `Matrix4.ApplyRows` |
| Vector4.DotCombine | hello_triangle/hello_triangle/math.h:91 | a dot product with a weighted sum of columns is the weighted sum of the dot products |
| Matrix4.Row | hello_triangle/hello_triangle/math.h:82 | row `r` of the column array holds `col[c].v[r]` at index `c` |
| Matrix4.SetEntry | hello_triangle/hello_triangle/math.h:105 | writing `col[c].v[r]` changes that one entry and no other |
| Matrix4.Flatten | hello_triangle/hello_triangle/math.h:82 | the sixteen floats lie column after column: `col[c].v[r]` is at index `4c + r` |
| Matrix4.Unflatten | hello_triangle/hello_triangle/math.h:82 | reading sixteen floats column after column puts index `4c + r` at `col[c].v[r]` |
| Matrix4.FlattenRoundTrip | hello_triangle/hello_triangle/math.h:82 | reading back the flat layout of a matrix gives the matrix |
| Matrix4.UnflattenRoundTrip | hello_triangle/hello_triangle/math.h:82 | laying out a matrix read from sixteen floats gives the floats |
| Matrix4.Identity | hello_triangle/hello_triangle/math.h:100-108 | 1 at every diagonal entry, 0 at every other entry |
| Matrix4.BuildIdentity | hello_triangle/hello_triangle/math.h:100-108 | the loop over `col[i].v[i] = 1` on a zero matrix gives 1 on the diagonal and 0 elsewhere |
| Matrix4.ApplyIdentity | hello_triangle/hello_triangle/math.h:100-108 | the identity leaves every vector unchanged |
| Matrix4.Zero | hello_triangle/hello_triangle/math.h:89 | no contract of its own: the zero-initialised `matrix4_t res = {}` (also at lines 102 and 134); `Matrix4.BuildIdentity` and `Camera.Perspective` start from it |
| Matrix4.Apply | hello_triangle/hello_triangle/math.h:91-94 | no contract of its own: a matrix applied to a vector is the weighted sum of its columns; characterised by `Matrix4.ApplyRows`, `Matrix4.ApplyIdentity` and `Matrix4.ApplyMul` |
| Matrix4.Mul | hello_triangle/hello_triangle/math.h:87-97 | no contract of its own: `operator*` is characterised by `Matrix4.MulEntries`, `Matrix4.ApplyMul`, `Matrix4.MulIdentityLeft`, `Matrix4.MulIdentityRight` and `Matrix4.MulAssociative` |
| Matrix4.ApplyRows | hello_triangle/hello_triangle/math.h:91-94 | the weighted sum of the columns equals, in each component, the dot product of the matching row with the vector |
| Matrix4.MulEntries | hello_triangle/hello_triangle/math.h:87-97 | entry `(r, c)` of `a * b` is row `r` of `a` dotted with column `c` of `b` |
| Matrix4.ApplyMul | hello_triangle/hello_triangle/math.h:87-97 | applying `a * b` is applying `b` and then `a` |
| Matrix4.MulIdentityLeft | hello_triangle/hello_triangle/math.h:87-108 | `identity() * M == M` |
| Matrix4.MulIdentityRight | hello_triangle/hello_triangle/math.h:87-108 | `M * identity() == M` |
| Matrix4.MulAssociative | hello_triangle/hello_triangle/math.h:87-97 | `(a * b) * c == a * (b * c)` |
| Matrix4.MulNotCommutative | hello_triangle/hello_triangle/math.h:87-97 | the product is not commutative: every pair of the stated shape has `a * b != b * a` |
| Matrix4.OrthogonalMul | hello_triangle/hello_triangle/math.h:87-97 | the product of two orthogonal matrices is orthogonal |
| Camera.CameraFrame | hello_triangle/hello_triangle/math.h:112-114 | `direction`, `right` and `real_up` are orthonormal and right-handed (`right × real_up == direction`); `direction` is `position - target` scaled to unit length; `right` is orthogonal to `up` and `real_up` has a positive component along `up`, so the camera is not rolled about its line of sight |
| Camera.RealUpFacesUp | hello_triangle/hello_triangle/math.h:113-114 | with `right` the unit vector along `up × direction`, `direction × right` has a positive dot product with `up` |
| Camera.RightHanded | hello_triangle/hello_triangle/math.h:113-114 | for orthonormal `r` and `d`, `r × (d × r) == d`, which makes the basis right-handed |
| Camera.AxisAlignedFrame | hello_triangle/hello_triangle/math.h:112-114 | an eye one unit along +z from its target, with up along y, gets the world axes as its basis |
| Camera.ViewRotation | hello_triangle/hello_triangle/math.h:116-119 | the rotation block has `right`, `real_up`, `direction` as rows 0, 1, 2 and `(0,0,0,1)` as row 3 |
| Camera.ApplyViewRotation | hello_triangle/hello_triangle/math.h:116-119 | the rotation block reads off a vector's coordinates along `right`, `real_up` and `direction` |
| Camera.Translation | hello_triangle/hello_triangle/math.h:121-124 | the translation block maps every point `p` to `p - position` |
| Camera.LookAt | hello_triangle/hello_triangle/math.h:110-127 | the bottom row is `(0,0,0,1)`, and every point is mapped to its offset from the eye measured along the camera basis |
| Camera.LookAtEyeToOrigin | hello_triangle/hello_triangle/math.h:110-127 | the eye is mapped to the origin `(0,0,0,1)` |
| Camera.LookAtTargetAhead | hello_triangle/hello_triangle/math.h:110-127 | the target is mapped onto the negative z axis, at its distance from the eye |
| Camera.LookAtAxisAligned | hello_triangle/hello_triangle/math.h:110-127 | an eye one unit along +z from its target, with up along y, gives a view matrix that is the bare translation by `-position` |
| Camera.Perspective | hello_triangle/hello_triangle/math.h:132-149 | the five written entries hold `1/(aspect·tan_half)`, `1/tan_half`, `-(far+near)/(far-near)`, `-1` at `col[2].v[3]` and `-(2·far·near)/(far-near)`; every other entry is 0 |
| Camera.PerspectiveRightAngle | hello_triangle/hello_triangle/math.h:136-146 | with `tan(fov/2) == 1` and aspect 1, the x and y scales are 1 and `col[2].v[3]` is -1 |
| Camera.PerspectiveClip | hello_triangle/hello_triangle/math.h:141-146 | a camera-space point goes to clip `w = -z`, with x, y and z the projected coordinates scaled by that depth |
| Camera.DepthRow | hello_triangle/hello_triangle/math.h:141-143 | the depth row maps `-near` to `-near` and `-far` to `far`, and keeps depths between the planes inside `[-depth, depth]` |
| Camera.PerspectiveNearPlane | hello_triangle/hello_triangle/math.h:141-143 | a point on the near plane gets clip `z == -w` |
| Camera.PerspectiveFarPlane | hello_triangle/hello_triangle/math.h:141-143 | a point on the far plane gets clip `z == w` |
| Camera.PerspectiveDepthInRange | hello_triangle/hello_triangle/math.h:141-143 | for `0 < near < far`, every point between the planes passes `-w <= z <= w` |
| Rotation.RotX | hello_triangle/hello_triangle/math.h:157-164 | the x factor holds `cos` at `col[1].v[1]` and `col[2].v[2]`, `-sin` at `col[2].v[1]`, `sin` at `col[1].v[2]`, and the identity's entries everywhere else |
| Rotation.RotXClosedForm | hello_triangle/hello_triangle/math.h:157-164 | the x factor equals the rotation matrix about x in `sin(a)` and `cos(a)` |
| Rotation.RotY | hello_triangle/hello_triangle/math.h:165-172 | the y factor holds `cos` at `col[0].v[0]` and `col[2].v[2]`, `-sin` at `col[0].v[2]`, `sin` at `col[2].v[0]`, and the identity's entries everywhere else |
| Rotation.RotYClosedForm | hello_triangle/hello_triangle/math.h:165-172 | the y factor equals the rotation matrix about y in `sin(a)` and `cos(a)` |
| Rotation.RotZ | hello_triangle/hello_triangle/math.h:173-180 | the z factor holds `cos` at `col[0].v[0]` and `col[1].v[1]`, `-sin` at `col[0].v[1]`, `sin` at `col[1].v[0]`, and the identity's entries everywhere else |
| Rotation.RotZClosedForm | hello_triangle/hello_triangle/math.h:173-180 | the z factor equals the matrix, in `sin(a)` and `cos(a)`, that turns x towards `-y` |
| Rotation.ApplyRotX | hello_triangle/hello_triangle/math.h:157-164 | the x factor turns any vector in its (y, z) plane and leaves x and w alone |
| Rotation.ApplyRotY | hello_triangle/hello_triangle/math.h:165-172 | the y factor turns any vector in its (z, x) plane and leaves y and w alone |
| Rotation.ApplyRotZ | hello_triangle/hello_triangle/math.h:173-180 | the z factor turns any vector in its (x, y) plane, clockwise seen from +z, and leaves z and w alone |
| Rotation.ElementalClosedForm | hello_triangle/hello_triangle/math.h:157-180 | each factor, written entry by entry into the identity, equals its closed-form rotation matrix in `sin(a)` and `cos(a)` |
| Rotation.FactorIsElemental | hello_triangle/hello_triangle/math.h:153-180 | when `sin` and `cos` are exact at 0, skipping a zero angle gives the same matrix as writing the rotation |
| Rotation.M4Rotate | hello_triangle/hello_triangle/math.h:151-186 | the result applies the z factor first, then y, then x |
| Rotation.M4RotateZero | hello_triangle/hello_triangle/math.h:151-186 | `m4_rotate(0, 0, 0) == identity()` |
| Rotation.M4RotateSkipsZero | hello_triangle/hello_triangle/math.h:151-186 | when one of the three angles is zero, `m4_rotate` applies only the other two factors, in the same order |
| Rotation.ElementalOrthogonal | hello_triangle/hello_triangle/math.h:157-180 | with `sin² + cos² = 1`, each elemental rotation is orthogonal |
| Rotation.FactorOrthogonal | hello_triangle/hello_triangle/math.h:153-180 | each factor is orthogonal, whether or not its angle is zero |
| Rotation.M4RotateOrthogonal | hello_triangle/hello_triangle/math.h:151-186 | `m4_rotate` always returns an orthogonal matrix |
| Rotation.M4RotatePreservesLength | hello_triangle/hello_triangle/math.h:151-186 | `m4_rotate` preserves the squared length of every vector |
| Rotation.QuarterTurns | hello_triangle/hello_triangle/math.h:157-180 | at a quarter turn, x takes y to z and y takes z to x (right-handed), but z takes x to `-y` |
| Rotation.M4RotateQuarterX | hello_triangle/hello_triangle/math.h:151-186 | `m4_rotate(a, 0, 0)` at a quarter turn takes `(0,1,0,0)` to `(0,0,1,0)` |
| Rotation.RotationOrderMatters | hello_triangle/hello_triangle/math.h:182-183 | at a quarter turn, `r_x * r_z` and `r_z * r_x` differ, so the composition order is observable |

## Left out

- `main.cpp` and `opengl.h` are not part of this model: window, message pump, OpenGL loading, shaders, draw calls, timing and the per-frame camera movement are platform plumbing.
- `game_math.hpp`, which `main.cpp` includes, is not part of this model.
- 32-bit float rounding, the detour through `double` for `sqrt`, and NaN and infinity propagation are not modelled. Components are exact reals.
- The values of `sqrt`, `sin`, `cos` and `tan` are not modelled. They are parameters constrained only by the `MathLib` predicates, and `tan` by nothing.
- The union aliasing of `x`/`y`/`z`/`w`, `r`/`g`/`b`/`a` and `v[]` is represented by named fields plus the indexed views `At` and `With`. The colour names are not modelled.
- The vector-by-vector `operator/` is commented out in the header for both arities and is not modelled.
- Vector3.Normalize, Vector4.Normalize: require a non-zero vector. The header divides by a zero length there and yields IEEE non-finite values.
- Camera.CameraFrame, Camera.LookAt: require `cross(up, position - target)` to be non-zero. That excludes an eye on its target and an up vector parallel to the line of sight, where the header yields non-finite values.
- Camera.Perspective: requires `far != near` and `aspect_ratio * tan(fov/2) != 0`, the divisors of the header. The header has no such checks.
- Vector3.DivAssign, Vector3.DivScalarAssign, Vector4.DivAssign, Vector4.DivScalarAssign: require non-zero divisors. Their result is stated as the value that the inverse operation maps back to the receiver.
- Vector3.ScaleAssign, Vector3.DivScalarAssign, Vector4.ScaleAssign, Vector4.DivScalarAssign: the scalar `*=` and `/=` return a copy of the receiver, while the vector compound forms return a reference to it. The model returns values in both cases, so it does not show that chaining a second compound assignment onto the result of a scalar one leaves the original receiver unchanged.
- Matrix4.MulNotCommutative: non-commutativity is shown for the family of pairs whose left factor has first row `(0,1,0,0)` and whose right factor has first column `(0,1,0,0)` and zeros in the rest of its first row. It is not a statement about every pair.
- Camera.PerspectiveRightAngle: takes `tan(fov/2) == 1` as a hypothesis instead of computing `tan(45°)`. The concrete depth entry for `near = 0.1`, `far = 100` follows from `Camera.Perspective`'s contract and is not stated separately.
- Rotation.M4RotateQuarterX: takes `sin(a) == 1` and `cos(a) == 0` as hypotheses instead of computing them at `π/2`.
