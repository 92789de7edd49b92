# Spinning-cube matrix pipeline, modelled in Dafny

This project models the matrix code of `src/sdl_gles2.c`, an SDL / OpenGL ES 2
demo that draws a spinning cube. The model covers:

- the `glMatrix` struct, a 4x4 array of entries indexed `m[row][col]`;
- the five in-place matrix routines: `LoadIdentityMatrix`, `TranslateMatrix`,
  `MultiplyMatrix`, `RotationMatrix` and `PerspectiveMatrix`;
- the matrix part of `InitializeRender`: the three identity loads and the
  perspective projection for fovy 30, near 0.1 and far 30;
- the per-frame update in `Render`: the modelview is rebuilt (identity, then
  translate to z = -4, then rotate about (1, 1, 0)), the spin angle advances
  by 0.3 degrees with its wrap at 360, and `mvp = modelview x projection`.

The model has four modules:

- `CMath` (`cmath.dfy`) stands in for `<math.h>`. `sinf`, `cosf` and `sqrtf`
  are caller-supplied total functions in a `MathLib` value. Predicates name
  the facts about them that some lemmas assume: `sqrtf` is positive exactly on
  positive arguments, `sqrtf` is the true root, and sin² + cos² = 1.
- `MatrixAlgebra` (`matrix_algebra.dfy`) holds 4x4 matrices as values:
  - the identity, the product, in-place translation, the rotation matrix of
    `RotationMatrix` and the projection of `PerspectiveMatrix`;
  - lemmas saying what each of these means.
- `GlMatrix` (`glmatrix.dfy`) holds the routines themselves, as methods on a
  4x4 `array2<real>`. A `glMatrix *` is a reference to one of these arrays, so
  `MultiplyMatrix(result, &rotMat, result)` passes the same array twice, just
  as the C code does. Each method's postcondition ties the new contents of the
  array to a function of the old contents.
- `Render` (`render.dfy`) holds the C globals `angle`, `projection`,
  `modelview` and `mvp` as the fields of a `RenderState` object:
  - its constructor is the matrix part of `InitializeRender`;
  - its `Render` method is the per-frame update;
  - `RenderFrames` is the foreground part of the loop in `main`:
    `InitializeRender` once, then `Render` once per frame.

The angle follows the code's `angle > 360.0f` test:

- The angle is reduced only when it goes strictly past 360 (`angle > 360.0f`),
  so in exact arithmetic it climbs to exactly 360 at frame 1200 and returns to
  0.3 at frame 1201. It is never 0 again after the first frame.
- The angle therefore stays in [0, 360], not [0, 360).
- After 1200 frames the angle is 360, not 0. Both are the same rotation.

The degree-to-radian conversion uses `M_PI` from `<math.h>`, as the code
does. The file's own `PI` macro is unused.

## Model

| member | source | states |
|---|---|---|
| MatrixAlgebra.Identity | src/sdl_gles2.c:375-383 | entry (i, j) of the identity is 1 when i == j and 0 otherwise |
| MatrixAlgebra.Mul | src/sdl_gles2.c:292-319 | entry (i, j) of a x b is row i of a dotted with column j of b |
| MatrixAlgebra.MulIdentityLeft | src/sdl_gles2.c:292-319 | identity x m == m |
| MatrixAlgebra.MulIdentityRight | src/sdl_gles2.c:292-319 | m x identity == m |
| MatrixAlgebra.Translated | src/sdl_gles2.c:283-289 | translating leaves rows 0, 1 and 2 as they were; only row 3 changes |
| MatrixAlgebra.TranslatedIsLeftMul | src/sdl_gles2.c:283-289 | the in-place update of row 3 equals the translation matrix (identity with row 3 = (tx, ty, tz, 1)) times the old matrix |
| MatrixAlgebra.TranslatedIdentity | src/sdl_gles2.c:283-289 | translating the identity gives the translation matrix, whose row 3 is (tx, ty, tz, 1) |
| MatrixAlgebra.TranslatedTwice | src/sdl_gles2.c:283-289 | two translations in a row equal one translation by the summed offsets |
| MatrixAlgebra.RotationMat | src/sdl_gles2.c:351-369 | the rotMat layout has row 3 equal to (0, 0, 0, 1) and zeros in column 3 of rows 0..2 |
| MatrixAlgebra.RotationFixesAxis | src/sdl_gles2.c:340-369 | for a unit axis and oneMinusCos == 1 - cos, the axis times the 3x3 block is the axis again |
| MatrixAlgebra.RotationOrthonormal | src/sdl_gles2.c:340-369 | for a unit axis and sin² + cos² == 1, the rows of the 3x3 block have unit length and are pairwise orthogonal |
| MatrixAlgebra.PerspectiveDepthRange | src/sdl_gles2.c:399-402 | the projection sends the point at depth -zNear to normalised depth -1 and the point at depth -zFar to +1 (clip w = -z) |
| GlMatrix.Value | src/sdl_gles2.c:23-26 | the value of a `glMatrix` has entry (i, j) equal to `m[i][j]` |
| GlMatrix.LoadIdentityMatrix | src/sdl_gles2.c:375-383 | after the call the matrix is the identity, whatever it held before |
| GlMatrix.TranslateMatrix | src/sdl_gles2.c:283-289 | the new matrix is Translated of the old one: rows 0-2 kept, row 3 grown by tx, ty, tz times rows 0, 1, 2 |
| GlMatrix.StoreMatrix | src/sdl_gles2.c:399-402 | after the entry stores, the local matrix holds exactly the given value |
| GlMatrix.CopyMatrix | src/sdl_gles2.c:319 | `memcpy` into a distinct matrix leaves it equal to the source |
| GlMatrix.MultiplyMatrix | src/sdl_gles2.c:292-319 | result becomes the product of the values srcA and srcB had on entry, even when result is srcA or srcB |
| GlMatrix.AxisAngleMat | src/sdl_gles2.c:326-369 | the rotation for the normalised axis has row 3 and column 3 equal to (0, 0, 0, 1) |
| GlMatrix.RotatedByAxis | src/sdl_gles2.c:326-331 | when sqrtf is positive exactly on positive arguments: the zero axis leaves the matrix unchanged, and any other axis has positive magnitude and left-multiplies the rotation in |
| GlMatrix.NormalizedAxisIsUnit | src/sdl_gles2.c:326-338 | with an exact sqrtf, dividing the axis by its magnitude gives a unit vector |
| GlMatrix.AxisAngleIsRotation | src/sdl_gles2.c:326-369 | with an exact sqrtf and sin² + cos² == 1, rotMat's 3x3 block is orthonormal and fixes the normalised axis |
| GlMatrix.RotatedKeepsRow3 | src/sdl_gles2.c:331-371 | rotating never changes row 3 (the translation row) of the matrix it is applied to |
| GlMatrix.RotationMatrix | src/sdl_gles2.c:322-373 | the matrix is rotMat x old matrix when the magnitude is > 0, and is left exactly as it was otherwise |
| GlMatrix.PerspectiveOfIdentity | src/sdl_gles2.c:386-405 | on the identity, a non-degenerate call leaves P: cot/aspect, cot, -(far+near)/deltaZ, -1 and -2·near·far/deltaZ in their places, and zero elsewhere, P[3][3] included |
| GlMatrix.PerspectiveMatrix | src/sdl_gles2.c:386-405 | when deltaZ == 0, sine == 0 or aspect == 0 the matrix is unchanged; otherwise it becomes P x old matrix |
| Render.NextAngle | src/sdl_gles2.c:235-238 | the angle grows by 0.3 and loses 360 exactly when the sum exceeds 360; an angle in [0, 360] stays in [0, 360] |
| Render.AngleAfterInRange | src/sdl_gles2.c:235-238 | starting from 0, the angle is in [0, 360] after every number of frames |
| Render.AngleAfterClosedForm | src/sdl_gles2.c:235-238 | after n >= 1 frames the angle is 0.3 · (((n - 1) mod 1200) + 1) |
| Render.AngleReaches360 | src/sdl_gles2.c:235-238 | the angle is exactly 360 after every multiple of 1200 frames, and 0.3 one frame later |
| Render.AngleNeverBackToZero | src/sdl_gles2.c:235-238 | after the first frame the angle is never 0 |
| Render.ModelViewIsRotatedTranslation | src/sdl_gles2.c:231-233 | the modelview is the rotation about (1, 1, 0) times the translation to z = -4; its row 3 is (0, 0, -4, 1) |
| Render.AspectRatio | src/sdl_gles2.c:217 | the aspect is 0 exactly for zero width, and aspect · height == width |
| Render.InitialProjectionEntries | src/sdl_gles2.c:216-222 | zero width leaves the projection at the identity; otherwise, when the sine is non-zero, it is P for fovy 30, near 0.1 and far 30 |
| Render.RenderState.constructor | src/sdl_gles2.c:216-222 | modelview and mvp are the identity, projection is the initial projection, and the three matrices are distinct; the angle is 0, the value of its static initialiser at line 14 |
| Render.RenderState.Render | src/sdl_gles2.c:231-241 | the modelview is rebuilt for the old angle, the angle becomes NextAngle of it, mvp == modelview x projection, and projection is unchanged |
| Render.RenderFrames | src/sdl_gles2.c:95-118 | after InitializeRender and n foreground frames the angle is AngleAfter(n), the projection is the initial one, and (for n >= 1) mvp is ModelView of the angle the last frame started with times the initial projection |

## Left out

- Everything in the file other than the matrix code is not modelled:
  - the SDL window, event polling and background throttle in `main`; of
    its loop only the calls to `InitializeRender` and `Render` are modelled;
  - shader compilation (`InitShader`);
  - the vertex and index buffers and the GL state set-up in `InitializeRender`;
  - `glViewport`;
  - the drawing half of `Render` after line 241 (program binding, attribute
    pointers, the `mvp` upload and `glDrawElements`);
  - `FinalizeRender`.

  These are calls into SDL and the GL driver, whose code is not part of this
  model.
- IEEE-754 `float` arithmetic is not modelled. Every scalar is a `real`, so
  the model has no rounding, no NaN and no infinity. The constants `0.3f`,
  `0.1f` and `(float)M_PI` are taken as exact decimals. The angle lemmas
  therefore describe the exact-arithmetic sequence, not the drift of a
  `float` accumulator.
- The values of `sinf`, `cosf` and `sqrtf` are not modelled. Each is an
  arbitrary function supplied by the caller. The lemmas that need facts about
  them take those facts as preconditions. These are `SqrtSignExact`,
  `SqrtIsRoot` and `Pythagorean`.
- Render.RenderState.constructor: requires `height != 0`. In C,
  `(float)width / height` with zero height gives an infinity or a NaN, which
  real arithmetic cannot represent.
- Render.RenderFrames: requires `height != 0` for the same reason. `main`
  passes 1080.
- GlMatrix.StoreMatrix: the 16 separate entry assignments that fill `rotMat`
  and `m` are made as one simultaneous assignment of the whole matrix. The
  temporaries `xx`…`zs` of `RotationMatrix` are folded into the entries of
  `RotationMat`. The stored values are the same.
- GlMatrix.LoadIdentityMatrix: `memset` to zero bytes is modelled as storing
  `0.0` in every entry, which is what all-zero bytes mean for an IEEE `float`.
