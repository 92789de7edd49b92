/**
 The in-place matrix routines. A `glMatrix *` is a reference to a 4x4
 `array2<real>`, so two pointers to the same matrix are the same array and
 the aliasing that RotationMatrix and PerspectiveMatrix rely on (they pass
 `result` as the right operand of MultiplyMatrix) is visible to the
 verifier. Each routine is specified by a function of module MatrixAlgebra
 or by Rotated/Perspective below.
 */
module GlMatrix {
  import opened CMath
  import opened MatrixAlgebra

  /** The storage of a `glMatrix`: four rows of four entries. */
  predicate Is4x4(a: array2<real>)
  {
    a.Length0 == 4 && a.Length1 == 4
  }

  /** The 16 entries of a `glMatrix` as a matrix value. */
  function Value(a: array2<real>): (r: Mat)
    reads a
    requires Is4x4(a)
    ensures forall i, j :: 0 <= i < 4 && 0 <= j < 4 ==> r[i][j] == a[i, j]
  {
    [[a[0, 0], a[0, 1], a[0, 2], a[0, 3]],
     [a[1, 0], a[1, 1], a[1, 2], a[1, 3]],
     [a[2, 0], a[2, 1], a[2, 2], a[2, 3]],
     [a[3, 0], a[3, 1], a[3, 2], a[3, 3]]]
  }

  /** memset to zero, then ones on the diagonal. */
  method LoadIdentityMatrix(result: array2<real>)
    requires Is4x4(result)
    modifies result
    ensures Value(result) == Identity()
  {
    forall i, j | 0 <= i < 4 && 0 <= j < 4 {
      result[i, j] := 0.0;
    }
    result[0, 0] := 1.0;
    result[1, 1] := 1.0;
    result[2, 2] := 1.0;
    result[3, 3] := 1.0;
    EntrywiseEqual(Value(result), Identity());
  }

  /** Row 3 grows by tx, ty, tz times rows 0, 1, 2; nothing else changes. */
  method TranslateMatrix(result: array2<real>, tx: real, ty: real, tz: real)
    requires Is4x4(result)
    modifies result
    ensures Value(result) == Translated(old(Value(result)), tx, ty, tz)
  {
    result[3, 0] := result[3, 0] + (Prod(result[0, 0], tx) + Prod(result[1, 0], ty) + Prod(result[2, 0], tz));
    result[3, 1] := result[3, 1] + (Prod(result[0, 1], tx) + Prod(result[1, 1], ty) + Prod(result[2, 1], tz));
    result[3, 2] := result[3, 2] + (Prod(result[0, 2], tx) + Prod(result[1, 2], ty) + Prod(result[2, 2], tz));
    result[3, 3] := result[3, 3] + (Prod(result[0, 3], tx) + Prod(result[1, 3], ty) + Prod(result[2, 3], tz));
    EntrywiseEqual(Value(result), Translated(old(Value(result)), tx, ty, tz));
  }

  /**
   Stores the 16 entries of v into a, as the entry-by-entry assignments
   that fill the local matrices of RotationMatrix and PerspectiveMatrix do.
   */
  method StoreMatrix(a: array2<real>, v: Mat)
    requires Is4x4(a)
    modifies a
    ensures Value(a) == v
  {
    forall i, j | 0 <= i < 4 && 0 <= j < 4 {
      a[i, j] := v[i][j];
    }
    EntrywiseEqual(Value(a), v);
  }

  /** `memcpy(dst, src, sizeof(glMatrix))` between two distinct matrices. */
  method CopyMatrix(dst: array2<real>, src: array2<real>)
    requires Is4x4(dst) && Is4x4(src) && dst != src
    modifies dst
    ensures Value(dst) == Value(src)
  {
    forall i, j | 0 <= i < 4 && 0 <= j < 4 {
      dst[i, j] := src[i, j];
    }
    EntrywiseEqual(Value(dst), Value(src));
  }

  /**
   result := srcA x srcB. The product is built in a fresh temporary from
   the values the operands had on entry and only then copied out, so the
   result is right even when `result` is `srcA` or `srcB`.
   */
  method MultiplyMatrix(result: array2<real>, srcA: array2<real>, srcB: array2<real>)
    requires Is4x4(result) && Is4x4(srcA) && Is4x4(srcB)
    modifies result
    ensures Value(result) == Mul(old(Value(srcA)), old(Value(srcB)))
  {
    ghost var a, b := Value(srcA), Value(srcB);
    var tmp := new real[4, 4];
    for i := 0 to 4
      modifies tmp
      invariant forall r, c :: 0 <= r < i && 0 <= c < 4 ==> tmp[r, c] == Dot(a, b, r, c)
    {
      tmp[i, 0] := Prod(srcA[i, 0], srcB[0, 0]) + Prod(srcA[i, 1], srcB[1, 0]) + Prod(srcA[i, 2], srcB[2, 0]) + Prod(srcA[i, 3], srcB[3, 0]);
      tmp[i, 1] := Prod(srcA[i, 0], srcB[0, 1]) + Prod(srcA[i, 1], srcB[1, 1]) + Prod(srcA[i, 2], srcB[2, 1]) + Prod(srcA[i, 3], srcB[3, 1]);
      tmp[i, 2] := Prod(srcA[i, 0], srcB[0, 2]) + Prod(srcA[i, 1], srcB[1, 2]) + Prod(srcA[i, 2], srcB[2, 2]) + Prod(srcA[i, 3], srcB[3, 2]);
      tmp[i, 3] := Prod(srcA[i, 0], srcB[0, 3]) + Prod(srcA[i, 1], srcB[1, 3]) + Prod(srcA[i, 2], srcB[2, 3]) + Prod(srcA[i, 3], srcB[3, 3]);
    }
    EntrywiseEqual(Value(tmp), Mul(a, b));
    CopyMatrix(result, tmp);
  }

  /** `sqrtf(x*x + y*y + z*z)`, the length RotationMatrix normalises the axis by. */
  function Magnitude(x: real, y: real, z: real, lib: MathLib): real
  {
    lib.sqrtf(x * x + y * y + z * z)
  }

  /**
   The rotMat RotationMatrix builds: the axis-angle matrix for the angle in
   degrees and the axis divided by its magnitude.
   */
  function AxisAngleMat(angle: real, x: real, y: real, z: real, lib: MathLib): (r: Mat)
    requires Magnitude(x, y, z, lib) > 0.0
    ensures r[3] == [0.0, 0.0, 0.0, 1.0]
    ensures r[0][3] == 0.0 && r[1][3] == 0.0 && r[2][3] == 0.0
  {
    var mag := Magnitude(x, y, z, lib);
    var cosAngle := lib.cosf(Radians(angle));
    RotationMat(lib.sinf(Radians(angle)), cosAngle, 1.0 - cosAngle, x / mag, y / mag, z / mag)
  }

  /** What RotationMatrix leaves in a matrix that held m. */
  function Rotated(m: Mat, angle: real, x: real, y: real, z: real, lib: MathLib): Mat
  {
    if Magnitude(x, y, z, lib) > 0.0 then Mul(AxisAngleMat(angle, x, y, z, lib), m) else m
  }

  /**
   The guard of RotationMatrix in terms of the axis: a zero axis leaves the
   matrix as it was, any other axis multiplies the rotation in on the left.
   */
  lemma RotatedByAxis(m: Mat, angle: real, x: real, y: real, z: real, lib: MathLib)
    requires SqrtSignExact(lib)
    ensures x == 0.0 && y == 0.0 && z == 0.0 ==> Rotated(m, angle, x, y, z, lib) == m
    ensures x != 0.0 || y != 0.0 || z != 0.0 ==>
      Magnitude(x, y, z, lib) > 0.0 && Rotated(m, angle, x, y, z, lib) == Mul(AxisAngleMat(angle, x, y, z, lib), m)
  {
    var s := x * x + y * y + z * z;
    assert lib.sqrtf(s) > 0.0 <==> s > 0.0;
    if x == 0.0 && y == 0.0 && z == 0.0 {
      assert s == 0.0;
    } else {
      SumOfSquaresPositive(x, y, z);
    }
  }

  /** A sum of three squares is positive unless all three are zero. */
  lemma SumOfSquaresPositive(x: real, y: real, z: real)
    ensures x * x + y * y + z * z >= 0.0
    ensures x != 0.0 || y != 0.0 || z != 0.0 ==> x * x + y * y + z * z > 0.0
  {
    assert x * x >= 0.0 && y * y >= 0.0 && z * z >= 0.0;
    if x != 0.0 {
      assert x * x > 0.0;
    } else if y != 0.0 {
      assert y * y > 0.0;
    } else if z != 0.0 {
      assert z * z > 0.0;
    }
  }

  /** A product of two positive numbers is positive. */
  lemma PositiveProd(a: real, b: real)
    requires a > 0.0 && b > 0.0
    ensures Prod(a, b) > 0.0
  {
    assert a * b > 0.0 * b;
  }

  /** If u scaled by m is x, then u^2 scaled by m^2 is x^2. */
  lemma SquareScale(u: real, m: real, x: real)
    requires u * m == x
    ensures Prod(Prod(u, u), Prod(m, m)) == Prod(x, x)
  {
    assert (u * u) * (m * m) == (u * m) * (u * m);
  }

  /** Three shares a, b, c of a positive total q, scaled back by q, add up to 1. */
  lemma SharesAddUp(a: real, b: real, c: real, q: real, p: real, r: real, s: real)
    requires Prod(a, q) == p && Prod(b, q) == r && Prod(c, q) == s
    requires q > 0.0 && q == p + r + s
    ensures a + b + c == 1.0
  {
    assert (a + b + c - 1.0) * q == 0.0;
  }

  /** A vector (u, v, w) that m > 0 scales to (x, y, z), with m^2 the squared length of (x, y, z), has length 1. */
  lemma UnitFromScaled(u: real, v: real, w: real, m: real, x: real, y: real, z: real)
    requires u * m == x && v * m == y && w * m == z
    requires m > 0.0 && m * m == x * x + y * y + z * z
    ensures u * u + v * v + w * w == 1.0
  {
    SquareScale(u, m, x);
    SquareScale(v, m, y);
    SquareScale(w, m, z);
    PositiveProd(m, m);
    SharesAddUp(Prod(u, u), Prod(v, v), Prod(w, w), Prod(m, m), Prod(x, x), Prod(y, y), Prod(z, z));
  }

  /** Dividing a non-zero axis by its magnitude gives a unit vector. */
  lemma NormalizedAxisIsUnit(x: real, y: real, z: real, lib: MathLib)
    requires SqrtIsRoot(lib)
    requires Magnitude(x, y, z, lib) > 0.0
    ensures var mag := Magnitude(x, y, z, lib);
      (x / mag) * (x / mag) + (y / mag) * (y / mag) + (z / mag) * (z / mag) == 1.0
  {
    var mag := Magnitude(x, y, z, lib);
    SumOfSquaresPositive(x, y, z);
    assert mag * mag == x * x + y * y + z * z;
    UnitFromScaled(x / mag, y / mag, z / mag, mag, x, y, z);
  }

  /**
   With an exact sqrtf and sin^2 + cos^2 == 1, the rotMat of RotationMatrix
   is a rotation about the normalised axis: its 3x3 block has orthonormal
   rows and maps the normalised axis to itself.
   */
  lemma AxisAngleIsRotation(angle: real, x: real, y: real, z: real, lib: MathLib)
    requires SqrtIsRoot(lib) && Pythagorean(lib)
    requires Magnitude(x, y, z, lib) > 0.0
    ensures var r := AxisAngleMat(angle, x, y, z, lib);
      && RowDot3(r, 0, 0) == 1.0 && RowDot3(r, 1, 1) == 1.0 && RowDot3(r, 2, 2) == 1.0
      && RowDot3(r, 0, 1) == 0.0 && RowDot3(r, 1, 2) == 0.0 && RowDot3(r, 2, 0) == 0.0
    ensures var mag := Magnitude(x, y, z, lib);
      var r := AxisAngleMat(angle, x, y, z, lib);
      && VecTimesColumn3(x / mag, y / mag, z / mag, r, 0) == x / mag
      && VecTimesColumn3(x / mag, y / mag, z / mag, r, 1) == y / mag
      && VecTimesColumn3(x / mag, y / mag, z / mag, r, 2) == z / mag
  {
    var mag := Magnitude(x, y, z, lib);
    var s, c := lib.sinf(Radians(angle)), lib.cosf(Radians(angle));
    var nx, ny, nz := x / mag, y / mag, z / mag;
    NormalizedAxisIsUnit(x, y, z, lib);
    assert s * s + c * c == 1.0;
    RotationOrthonormal(s, c, 1.0 - c, nx, ny, nz);
    RotationFixesAxis(s, c, 1.0 - c, nx, ny, nz);
  }

  /**
   rotMat x m has column 3 of m with rows 0..2 replaced by the block times
   it, and row 3 of m unchanged: the rotation never touches the
   translation row of the matrix it is applied to.
   */
  lemma RotatedKeepsRow3(m: Mat, angle: real, x: real, y: real, z: real, lib: MathLib)
    ensures Rotated(m, angle, x, y, z, lib)[3] == m[3]
  {
    if Magnitude(x, y, z, lib) > 0.0 {
      var r := AxisAngleMat(angle, x, y, z, lib);
      var p := Mul(r, m);
      forall j | 0 <= j < 4
        ensures p[3][j] == m[3][j]
      {
        assert p[3][j] == 0.0 * m[0][j] + 0.0 * m[1][j] + 0.0 * m[2][j] + 1.0 * m[3][j];
      }
    }
  }

  /**
   Axis-angle rotation of `result` in place: rotMat x result when the axis
   has positive magnitude, no change at all otherwise.
   */
  method RotationMatrix(result: array2<real>, angle: real, x: real, y: real, z: real, lib: MathLib)
    requires Is4x4(result)
    modifies result
    ensures Value(result) == Rotated(old(Value(result)), angle, x, y, z, lib)
  {
    ghost var m0 := Value(result);
    var mag := Magnitude(x, y, z, lib);
    var sinAngle := lib.sinf(Radians(angle));
    var cosAngle := lib.cosf(Radians(angle));
    if mag > 0.0 {
      var nx, ny, nz := x / mag, y / mag, z / mag;
      var oneMinusCos := 1.0 - cosAngle;
      var rotMat := new real[4, 4];
      assert AxisAngleMat(angle, x, y, z, lib) == RotationMat(sinAngle, cosAngle, oneMinusCos, nx, ny, nz);
      StoreMatrix(rotMat, RotationMat(sinAngle, cosAngle, oneMinusCos, nx, ny, nz));
      MultiplyMatrix(result, rotMat, result);
      assert Value(result) == Mul(AxisAngleMat(angle, x, y, z, lib), m0);
    }
  }

  /** The degenerate inputs PerspectiveMatrix refuses: zero depth range, zero sine of half the field of view, zero aspect. */
  predicate PerspectiveDegenerate(fovy: real, aspect: real, zNear: real, zFar: real, lib: MathLib)
  {
    zFar - zNear == 0.0 || lib.sinf(Radians(fovy / 2.0)) == 0.0 || aspect == 0.0
  }

  /** What PerspectiveMatrix leaves in a matrix that held m. */
  function Perspective(m: Mat, fovy: real, aspect: real, zNear: real, zFar: real, lib: MathLib): Mat
  {
    if PerspectiveDegenerate(fovy, aspect, zNear, zFar, lib) then m
    else
      var radians := Radians(fovy / 2.0);
      Mul(PerspectiveMat(lib.cosf(radians) / lib.sinf(radians), aspect, zNear, zFar), m)
  }

  /**
   Applied to the identity (as InitializeRender does), a non-degenerate
   PerspectiveMatrix leaves exactly the projection matrix P: cot/aspect,
   cot, -(far + near)/deltaZ, -1, -2 near far/deltaZ in their places and
   zero everywhere else, including P[3][3].
   */
  lemma PerspectiveOfIdentity(fovy: real, aspect: real, zNear: real, zFar: real, lib: MathLib)
    requires !PerspectiveDegenerate(fovy, aspect, zNear, zFar, lib)
    ensures var radians := Radians(fovy / 2.0);
      var cot := lib.cosf(radians) / lib.sinf(radians);
      var deltaZ := zFar - zNear;
      var p := Perspective(Identity(), fovy, aspect, zNear, zFar, lib);
      && p[0] == [cot / aspect, 0.0, 0.0, 0.0]
      && p[1] == [0.0, cot, 0.0, 0.0]
      && p[2] == [0.0, 0.0, -(zFar + zNear) / deltaZ, -1.0]
      && p[3] == [0.0, 0.0, -2.0 * zNear * zFar / deltaZ, 0.0]
  {
    var radians := Radians(fovy / 2.0);
    MulIdentityRight(PerspectiveMat(lib.cosf(radians) / lib.sinf(radians), aspect, zNear, zFar));
  }

  /**
   Perspective projection of `result` in place: P x result, or no change
   when the inputs are degenerate.
   */
  method PerspectiveMatrix(result: array2<real>, fovy: real, aspect: real, zNear: real, zFar: real, lib: MathLib)
    requires Is4x4(result)
    modifies result
    ensures PerspectiveDegenerate(fovy, aspect, zNear, zFar, lib) ==> Value(result) == old(Value(result))
    ensures Value(result) == Perspective(old(Value(result)), fovy, aspect, zNear, zFar, lib)
  {
    var radians := Radians(fovy / 2.0);
    var deltaZ := zFar - zNear;
    var sine := lib.sinf(radians);
    if deltaZ == 0.0 || sine == 0.0 || aspect == 0.0 {
      return;
    }
    var cotangent := lib.cosf(radians) / sine;
    var m := new real[4, 4];
    StoreMatrix(m, PerspectiveMat(cotangent, aspect, zNear, zFar));
    MultiplyMatrix(result, m, result);
  }
}
