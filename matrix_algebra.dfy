/**
 4x4 matrices as values, indexed `m[row][col]` like the `glMatrix` struct.
 The in-place routines of module GlMatrix are specified by the functions
 here; the lemmas state what those functions mean (identity laws, a
 translation is a left multiplication, the rotation fixes its axis and is
 orthonormal, the projection maps the near and far planes to -1 and 1).
 */
module MatrixAlgebra {

  /** A 4x4 matrix of reals, stored row by row. */
  type Mat = m: seq<seq<real>> | |m| == 4 && forall i :: 0 <= i < 4 ==> |m[i]| == 4
    witness [[0.0, 0.0, 0.0, 0.0], [0.0, 0.0, 0.0, 0.0], [0.0, 0.0, 0.0, 0.0], [0.0, 0.0, 0.0, 0.0]]

  /** Two matrices with the same 16 entries are the same matrix. */
  lemma EntrywiseEqual(m: Mat, n: Mat)
    requires forall i, j :: 0 <= i < 4 && 0 <= j < 4 ==> m[i][j] == n[i][j]
    ensures m == n
  {
    assert forall i :: 0 <= i < 4 ==> m[i] == n[i];
  }

  /** The identity: ones on the diagonal, zeros elsewhere. */
  function Identity(): (r: Mat)
    ensures forall i, j :: 0 <= i < 4 && 0 <= j < 4 ==> r[i][j] == if i == j then 1.0 else 0.0
  {
    [[1.0, 0.0, 0.0, 0.0],
     [0.0, 1.0, 0.0, 0.0],
     [0.0, 0.0, 1.0, 0.0],
     [0.0, 0.0, 0.0, 1.0]]
  }

  /**
   A product kept as a function application, so that equal factors give
   equal products by congruence alone.
   */
  function Prod(a: real, b: real): real
  {
    a * b
  }

  /** Row i of a times column j of b. */
  function Dot(a: Mat, b: Mat, i: nat, j: nat): real
    requires i < 4 && j < 4
  {
    Prod(a[i][0], b[0][j]) + Prod(a[i][1], b[1][j]) + Prod(a[i][2], b[2][j]) + Prod(a[i][3], b[3][j])
  }

  /** The row-by-column product a x b. */
  function Mul(a: Mat, b: Mat): (r: Mat)
    ensures forall i, j :: 0 <= i < 4 && 0 <= j < 4 ==> r[i][j] == Dot(a, b, i, j)
  {
    seq(4, i requires 0 <= i < 4 => seq(4, j requires 0 <= j < 4 => Dot(a, b, i, j)))
  }

  lemma MulIdentityLeft(m: Mat)
    ensures Mul(Identity(), m) == m
  {
    var r := Mul(Identity(), m);
    forall i, j | 0 <= i < 4 && 0 <= j < 4
      ensures r[i][j] == m[i][j]
    {
      if i == 0 {
      } else if i == 1 {
      } else if i == 2 {
      } else {
      }
    }
    EntrywiseEqual(r, m);
  }

  lemma MulIdentityRight(m: Mat)
    ensures Mul(m, Identity()) == m
  {
    var r := Mul(m, Identity());
    forall i, j | 0 <= i < 4 && 0 <= j < 4
      ensures r[i][j] == m[i][j]
    {
      if j == 0 {
      } else if j == 1 {
      } else if j == 2 {
      } else {
      }
    }
    EntrywiseEqual(r, m);
  }

  /**
   Translation in the matrix's own axes: row 3 grows by tx, ty, tz times
   rows 0, 1 and 2; the other rows are kept.
   */
  function Translated(m: Mat, tx: real, ty: real, tz: real): (r: Mat)
    ensures r[0] == m[0] && r[1] == m[1] && r[2] == m[2]
  {
    m[3 := [m[3][0] + (Prod(m[0][0], tx) + Prod(m[1][0], ty) + Prod(m[2][0], tz)),
            m[3][1] + (Prod(m[0][1], tx) + Prod(m[1][1], ty) + Prod(m[2][1], tz)),
            m[3][2] + (Prod(m[0][2], tx) + Prod(m[1][2], ty) + Prod(m[2][2], tz)),
            m[3][3] + (Prod(m[0][3], tx) + Prod(m[1][3], ty) + Prod(m[2][3], tz))]]
  }

  /** The translation matrix: the identity with (tx, ty, tz, 1) as row 3. */
  function TranslationMat(tx: real, ty: real, tz: real): Mat
  {
    [[1.0, 0.0, 0.0, 0.0],
     [0.0, 1.0, 0.0, 0.0],
     [0.0, 0.0, 1.0, 0.0],
     [tx, ty, tz, 1.0]]
  }

  /** One column of TranslatedIsLeftMul: the grown entry of row 3 is row (tx, ty, tz, 1) times the column. */
  lemma TranslatedColumn(a0: real, a1: real, a2: real, a3: real, tx: real, ty: real, tz: real)
    ensures a3 + (Prod(a0, tx) + Prod(a1, ty) + Prod(a2, tz))
      == Prod(tx, a0) + Prod(ty, a1) + Prod(tz, a2) + Prod(1.0, a3)
  {
    assert Prod(a0, tx) == Prod(tx, a0) && Prod(a1, ty) == Prod(ty, a1) && Prod(a2, tz) == Prod(tz, a2);
  }

  /** Translating in place is the same as multiplying by the translation matrix on the left. */
  lemma TranslatedIsLeftMul(m: Mat, tx: real, ty: real, tz: real)
    ensures Translated(m, tx, ty, tz) == Mul(TranslationMat(tx, ty, tz), m)
  {
    var r, p := Translated(m, tx, ty, tz), Mul(TranslationMat(tx, ty, tz), m);
    forall i, j | 0 <= i < 4 && 0 <= j < 4
      ensures r[i][j] == p[i][j]
    {
      if j == 0 {
        TranslatedColumn(m[0][0], m[1][0], m[2][0], m[3][0], tx, ty, tz);
      } else if j == 1 {
        TranslatedColumn(m[0][1], m[1][1], m[2][1], m[3][1], tx, ty, tz);
      } else if j == 2 {
        TranslatedColumn(m[0][2], m[1][2], m[2][2], m[3][2], tx, ty, tz);
      } else {
        TranslatedColumn(m[0][3], m[1][3], m[2][3], m[3][3], tx, ty, tz);
      }
    }
    EntrywiseEqual(r, p);
  }

  /** Translating the identity gives the translation matrix: row 3 becomes (tx, ty, tz, 1). */
  lemma TranslatedIdentity(tx: real, ty: real, tz: real)
    ensures Translated(Identity(), tx, ty, tz) == TranslationMat(tx, ty, tz)
    ensures Translated(Identity(), tx, ty, tz)[3] == [tx, ty, tz, 1.0]
  {
    TranslatedIsLeftMul(Identity(), tx, ty, tz);
    MulIdentityRight(TranslationMat(tx, ty, tz));
  }

  /** One column of TranslatedTwice: the two growths of a row-3 entry add up. */
  lemma TwiceColumn(a0: real, a1: real, a2: real, a3: real, tx: real, ty: real, tz: real, ux: real, uy: real, uz: real)
    ensures a3 + (Prod(a0, tx) + Prod(a1, ty) + Prod(a2, tz)) + (Prod(a0, ux) + Prod(a1, uy) + Prod(a2, uz))
      == a3 + (Prod(a0, tx + ux) + Prod(a1, ty + uy) + Prod(a2, tz + uz))
  {
    assert a0 * (tx + ux) == a0 * tx + a0 * ux;
    assert a1 * (ty + uy) == a1 * ty + a1 * uy;
    assert a2 * (tz + uz) == a2 * tz + a2 * uz;
  }

  /** Two translations in a row add up, since neither changes the rows the other reads. */
  lemma TranslatedTwice(m: Mat, tx: real, ty: real, tz: real, ux: real, uy: real, uz: real)
    ensures Translated(Translated(m, tx, ty, tz), ux, uy, uz) == Translated(m, tx + ux, ty + uy, tz + uz)
  {
    var r, p := Translated(Translated(m, tx, ty, tz), ux, uy, uz), Translated(m, tx + ux, ty + uy, tz + uz);
    TwiceColumn(m[0][0], m[1][0], m[2][0], m[3][0], tx, ty, tz, ux, uy, uz);
    TwiceColumn(m[0][1], m[1][1], m[2][1], m[3][1], tx, ty, tz, ux, uy, uz);
    TwiceColumn(m[0][2], m[1][2], m[2][2], m[3][2], tx, ty, tz, ux, uy, uz);
    TwiceColumn(m[0][3], m[1][3], m[2][3], m[3][3], tx, ty, tz, ux, uy, uz);
    assert r[3] == p[3];
  }

  /**
   The axis-angle rotation matrix for sine s, cosine c, omc == 1 - c (the
   oneMinusCos of RotationMatrix) and axis (x, y, z), laid out as
   RotationMatrix lays out rotMat: the 3x3 block in rows and columns 0..2,
   and row 3 and column 3 equal to (0, 0, 0, 1).
   */
  function RotationMat(s: real, c: real, omc: real, x: real, y: real, z: real): (r: Mat)
    ensures r[3] == [0.0, 0.0, 0.0, 1.0]
    ensures r[0][3] == 0.0 && r[1][3] == 0.0 && r[2][3] == 0.0
  {
    [[omc * (x * x) + c,       omc * (x * y) + z * s,   omc * (z * x) - y * s,   0.0],
     [omc * (x * y) - z * s,   omc * (y * y) + c,       omc * (y * z) + x * s,   0.0],
     [omc * (z * x) + y * s,   omc * (y * z) - x * s,   omc * (z * z) + c,       0.0],
     [0.0,                     0.0,                     0.0,                     1.0]]
  }

  /** The row vector (x, y, z) times column j of the upper-left 3x3 block. */
  function VecTimesColumn3(x: real, y: real, z: real, m: Mat, j: nat): real
    requires j < 4
  {
    Prod(x, m[0][j]) + Prod(y, m[1][j]) + Prod(z, m[2][j])
  }

  /** Dot product of rows i and k of the upper-left 3x3 block. */
  function RowDot3(m: Mat, i: nat, k: nat): real
    requires i < 4 && k < 4
  {
    Prod(m[i][0], m[k][0]) + Prod(m[i][1], m[k][1]) + Prod(m[i][2], m[k][2])
  }

  /** The axis times column 0 of the block, written for the axis (x, y, z); columns 1 and 2 are its cyclic shifts. */
  lemma AxisColumn(s: real, c: real, o: real, x: real, y: real, z: real)
    requires o == 1.0 - c
    requires x * x + y * y + z * z == 1.0
    ensures Prod(x, o * (x * x) + c) + Prod(y, o * (x * y) - z * s) + Prod(z, o * (z * x) + y * s) == x
  {
    assert x * (o * (x * x) + c) == o * x * (x * x) + c * x;
    assert y * (o * (x * y) - z * s) == o * x * (y * y) - s * (y * z);
    assert z * (o * (z * x) + y * s) == o * x * (z * z) + s * (y * z);
    assert o * x * (x * x) + o * x * (y * y) + o * x * (z * z) == o * x * (x * x + y * y + z * z);
  }

  /**
   A row vector (x, y, z) times the 3x3 block of a rotation about the unit
   axis (x, y, z) is (x, y, z) again: the axis is left where it is.
   */
  lemma RotationFixesAxis(s: real, c: real, omc: real, x: real, y: real, z: real)
    requires omc == 1.0 - c
    requires x * x + y * y + z * z == 1.0
    ensures var r := RotationMat(s, c, omc, x, y, z);
      && VecTimesColumn3(x, y, z, r, 0) == x
      && VecTimesColumn3(x, y, z, r, 1) == y
      && VecTimesColumn3(x, y, z, r, 2) == z
  {
    AxisColumn(s, c, omc, x, y, z);
    AxisColumn(s, c, omc, y, z, x);
    AxisColumn(s, c, omc, z, x, y);
  }

  /** Row 0 of the block has unit length, written for the axis (x, y, z); rows 1 and 2 are its cyclic shifts. */
  lemma UnitRow(s: real, c: real, o: real, x: real, y: real, z: real)
    requires o == 1.0 - c && s * s + c * c == 1.0
    requires x * x + y * y + z * z == 1.0
    ensures Prod(o * (x * x) + c, o * (x * x) + c) + Prod(o * (x * y) + z * s, o * (x * y) + z * s)
      + Prod(o * (z * x) - y * s, o * (z * x) - y * s) == 1.0
  {
    assert (o * (x * x) + c) * (o * (x * x) + c) == o * o * (x * x) * (x * x) + 2.0 * o * c * (x * x) + c * c;
    assert (o * (x * y) + z * s) * (o * (x * y) + z * s)
      == o * o * (x * x) * (y * y) + 2.0 * o * x * s * (y * z) + (z * z) * (s * s);
    assert (o * (z * x) - y * s) * (o * (z * x) - y * s)
      == o * o * (x * x) * (z * z) - 2.0 * o * x * s * (y * z) + (y * y) * (s * s);
    assert o * o * (x * x) * (x * x) + o * o * (x * x) * (y * y) + o * o * (x * x) * (z * z) == o * o * (x * x);
    assert (z * z) * (s * s) + (y * y) * (s * s) == (1.0 - x * x) * (s * s);
    assert o * o + 2.0 * o * c == 1.0 - c * c;
  }

  /** Rows 0 and 1 of the block are orthogonal, written for the axis (x, y, z); the other pairs are its cyclic shifts. */
  lemma OrthogonalRows(s: real, c: real, o: real, x: real, y: real, z: real)
    requires o == 1.0 - c && s * s + c * c == 1.0
    requires x * x + y * y + z * z == 1.0
    ensures Prod(o * (x * x) + c, o * (x * y) - z * s) + Prod(o * (x * y) + z * s, o * (y * y) + c)
      + Prod(o * (z * x) - y * s, o * (y * z) + x * s) == 0.0
  {
    assert (o * (x * x) + c) * (o * (x * y) - z * s)
      == o * o * (x * y) * (x * x) - o * s * z * (x * x) + o * c * (x * y) - c * z * s;
    assert (o * (x * y) + z * s) * (o * (y * y) + c)
      == o * o * (x * y) * (y * y) + o * c * (x * y) + o * s * z * (y * y) + c * z * s;
    assert (o * (z * x) - y * s) * (o * (y * z) + x * s)
      == o * o * (x * y) * (z * z) + o * s * z * (x * x) - o * s * z * (y * y) - (x * y) * (s * s);
    assert o * o * (x * y) * (x * x) + o * o * (x * y) * (y * y) + o * o * (x * y) * (z * z) == o * o * (x * y);
    assert o * o + 2.0 * o * c == 1.0 - c * c;
  }

  /**
   With a unit axis and sin^2 + cos^2 == 1, the rows of the 3x3 block are
   unit vectors and pairwise orthogonal.
   */
  lemma RotationOrthonormal(s: real, c: real, omc: real, x: real, y: real, z: real)
    requires omc == 1.0 - c
    requires x * x + y * y + z * z == 1.0
    requires s * s + c * c == 1.0
    ensures var r := RotationMat(s, c, omc, x, y, z);
      && RowDot3(r, 0, 0) == 1.0 && RowDot3(r, 1, 1) == 1.0 && RowDot3(r, 2, 2) == 1.0
      && RowDot3(r, 0, 1) == 0.0 && RowDot3(r, 1, 2) == 0.0 && RowDot3(r, 2, 0) == 0.0
  {
    UnitRow(s, c, omc, x, y, z);
    UnitRow(s, c, omc, y, z, x);
    UnitRow(s, c, omc, z, x, y);
    OrthogonalRows(s, c, omc, x, y, z);
    OrthogonalRows(s, c, omc, y, z, x);
    OrthogonalRows(s, c, omc, z, x, y);
  }

  /**
   The symmetric perspective projection for cotangent `cot` of half the
   field of view, aspect ratio and near and far planes; every entry that
   PerspectiveMatrix does not set to a non-zero value is zero.
   */
  function PerspectiveMat(cot: real, aspect: real, zNear: real, zFar: real): Mat
    requires aspect != 0.0 && zFar - zNear != 0.0
  {
    var deltaZ := zFar - zNear;
    [[cot / aspect, 0.0, 0.0,                              0.0],
     [0.0,          cot, 0.0,                              0.0],
     [0.0,          0.0, -(zFar + zNear) / deltaZ,         -1.0],
     [0.0,          0.0, -2.0 * zNear * zFar / deltaZ,     0.0]]
  }

  /**
   A point at depth z (row vector (0, 0, z, 1)) lands at clip depth
   z P[2][2] + P[3][2] with clip w = z P[2][3] = -z. For z = -zNear the
   normalised depth is -1 and for z = -zFar it is 1.
   */
  lemma PerspectiveDepthRange(cot: real, aspect: real, zNear: real, zFar: real)
    requires aspect != 0.0 && zFar - zNear != 0.0
    ensures var p := PerspectiveMat(cot, aspect, zNear, zFar);
      && (-zNear) * p[2][2] + p[3][2] == -zNear && (-zNear) * p[2][3] == zNear
      && (-zFar) * p[2][2] + p[3][2] == zFar && (-zFar) * p[2][3] == zFar
  {
    var n, f, d := zNear, zFar, zFar - zNear;
    assert (-n) * (-(f + n) / d) == n * (f + n) / d;
    assert n * (f + n) / d + -2.0 * n * f / d == (n * (f + n) - 2.0 * n * f) / d;
    assert n * (f + n) - 2.0 * n * f == -n * d;
    assert (-n * d) / d == -n;
    assert (-f) * (-(f + n) / d) == f * (f + n) / d;
    assert f * (f + n) / d + -2.0 * n * f / d == (f * (f + n) - 2.0 * n * f) / d;
    assert f * (f + n) - 2.0 * n * f == f * d;
    assert (f * d) / d == f;
  }
}
