/**
 The per-frame state of the demo: the spin angle and the three matrices
 `projection`, `modelview` and `mvp`, which the C program keeps in file-scope
 globals. Here they are the fields of one RenderState object. The matrix
 part of InitializeRender is its constructor, and Render is the per-frame
 update of the angle and the matrices.
 */
module Render {
  import opened CMath
  import opened MatrixAlgebra
  import opened GlMatrix

  /** PROJECTION_FOVY, PROJECTION_NEAR and PROJECTION_FAR. */
  const ProjectionFovy: real := 30.0
  const ProjectionNear: real := 0.1
  const ProjectionFar: real := 30.0

  /** How far the cube turns per frame, in degrees. */
  const Step: real := 0.3

  /**
   The angle one frame after a: 0.3 degrees more, brought back by 360 only
   when it went strictly past 360. An angle in [0, 360] stays in [0, 360].
   */
  function NextAngle(a: real): (r: real)
    ensures a + Step > 360.0 ==> r == a + Step - 360.0
    ensures a + Step <= 360.0 ==> r == a + Step
    ensures 0.0 <= a <= 360.0 ==> 0.0 <= r <= 360.0
  {
    var turned := a + Step;
    if turned > 360.0 then turned - 360.0 else turned
  }

  /** The angle after n frames, counting from the 0 of the static initialiser of `angle`. */
  function AngleAfter(n: nat): real
  {
    if n == 0 then 0.0 else NextAngle(AngleAfter(n - 1))
  }

  /** The angle never leaves [0, 360]. */
  lemma {:induction false} AngleAfterInRange(n: nat)
    ensures 0.0 <= AngleAfter(n) <= 360.0
  {
    if n > 0 {
      AngleAfterInRange(n - 1);
    }
  }

  /**
   In exact arithmetic the angle after n >= 1 frames is 0.3 times
   ((n - 1) mod 1200) + 1: it climbs in steps of 0.3 up to 360 itself
   (frame 1200) and the next frame brings it back to 0.3, never to 0.
   */
  lemma {:induction false} AngleAfterClosedForm(n: nat)
    requires n >= 1
    ensures AngleAfter(n) == Step * (((n - 1) % 1200 + 1) as real)
  {
    if n > 1 {
      assert AngleAfter(n) == NextAngle(AngleAfter(n - 1));
      AngleAfterClosedForm(n - 1);
      FrameCountStep(n - 2);
    }
  }

  /** One more frame moves the frame count mod 1200 on by one, from 1199 back to 0. */
  lemma FrameCountStep(m: nat)
    ensures m % 1200 < 1199 ==> (m + 1) % 1200 == m % 1200 + 1
    ensures m % 1200 == 1199 ==> (m + 1) % 1200 == 0
  {
    var q, j := m / 1200, m % 1200;
    assert m + 1 == 1200 * q + (j + 1);
    if j == 1199 {
      assert m + 1 == 1200 * (q + 1);
    }
  }

  /**
   360 itself is reached, at frame 1200 and every 1200 frames after it, and
   the wrap on the frame after lands on 0.3.
   */
  lemma AngleReaches360(turns: nat)
    requires turns >= 1
    ensures AngleAfter(1200 * turns) == 360.0
    ensures AngleAfter(1200 * turns + 1) == Step
  {
    AngleAfterClosedForm(1200 * turns);
    AngleAfterClosedForm(1200 * turns + 1);
    assert (1200 * turns - 1) % 1200 == 1199;
    assert (1200 * turns) % 1200 == 0;
  }

  /** After the first frame the angle is never 0 again. */
  lemma AngleNeverBackToZero(n: nat)
    requires n >= 1
    ensures AngleAfter(n) > 0.0
  {
    AngleAfterClosedForm(n);
  }

  /** The modelview Render computes for a given angle: identity, translated to z = -4, rotated about (1, 1, 0). */
  function ModelView(angle: real, lib: MathLib): Mat
  {
    Rotated(Translated(Identity(), 0.0, 0.0, -4.0), angle, 1.0, 1.0, 0.0, lib)
  }

  /**
   Given only that sqrtf is positive exactly on positive arguments, the
   modelview is the axis-angle rotation about (1, 1, 0) times the
   translation to z = -4, and whatever sqrtf returns its row 3 is that
   translation, (0, 0, -4, 1).
   */
  lemma ModelViewIsRotatedTranslation(angle: real, lib: MathLib)
    requires SqrtSignExact(lib)
    ensures Magnitude(1.0, 1.0, 0.0, lib) > 0.0
    ensures ModelView(angle, lib) == Mul(AxisAngleMat(angle, 1.0, 1.0, 0.0, lib), TranslationMat(0.0, 0.0, -4.0))
    ensures ModelView(angle, lib)[3] == [0.0, 0.0, -4.0, 1.0]
  {
    TranslatedIdentity(0.0, 0.0, -4.0);
    RotatedByAxis(Translated(Identity(), 0.0, 0.0, -4.0), angle, 1.0, 1.0, 0.0, lib);
    RotatedKeepsRow3(Translated(Identity(), 0.0, 0.0, -4.0), angle, 1.0, 1.0, 0.0, lib);
  }

  /** `(float)(width)/height`. */
  function AspectRatio(width: int, height: int): (r: real)
    requires height != 0
    ensures r == 0.0 <==> width == 0
    ensures r * (height as real) == width as real
  {
    (width as real) / (height as real)
  }

  /** The projection InitializeRender leaves for a window of width x height. */
  function InitialProjection(width: int, height: int, lib: MathLib): Mat
    requires height != 0
  {
    Perspective(Identity(), ProjectionFovy, AspectRatio(width, height), ProjectionNear, ProjectionFar, lib)
  }

  /**
   A zero-width window makes the aspect zero, so PerspectiveMatrix refuses
   it and the projection stays the identity; otherwise, when sinf of half
   the field of view is non-zero, the projection is the perspective matrix
   for near 0.1 and far 30.
   */
  lemma InitialProjectionEntries(width: int, height: int, lib: MathLib)
    requires height != 0
    ensures width == 0 ==> InitialProjection(width, height, lib) == Identity()
    ensures width != 0 && lib.sinf(Radians(ProjectionFovy / 2.0)) != 0.0 ==>
      var radians := Radians(ProjectionFovy / 2.0);
      var cot := lib.cosf(radians) / lib.sinf(radians);
      var p := InitialProjection(width, height, lib);
      && p[0] == [cot / AspectRatio(width, height), 0.0, 0.0, 0.0]
      && p[1] == [0.0, cot, 0.0, 0.0]
      && p[2] == [0.0, 0.0, -30.1 / 29.9, -1.0]
      && p[3] == [0.0, 0.0, -6.0 / 29.9, 0.0]
  {
    if width != 0 && lib.sinf(Radians(ProjectionFovy / 2.0)) != 0.0 {
      PerspectiveOfIdentity(ProjectionFovy, AspectRatio(width, height), ProjectionNear, ProjectionFar, lib);
    }
  }

  /** The globals `angle`, `projection`, `modelview` and `mvp`, and the math library they are computed with. */
  class RenderState {
    const lib: MathLib
    var angle: real
    const projection: array2<real>
    const modelview: array2<real>
    const mvp: array2<real>

    /** Three separate 4x4 matrices and an angle in [0, 360]. */
    predicate Valid()
      reads this
    {
      && Is4x4(projection) && Is4x4(modelview) && Is4x4(mvp)
      && projection != modelview && projection != mvp && modelview != mvp
      && 0.0 <= angle <= 360.0
    }

    /**
     The matrix part of InitializeRender: all three matrices loaded with
     the identity, then the perspective projection multiplied into
     `projection`. The angle starts at 0, the value the static
     initialiser of `angle` gives it before InitializeRender runs.
     */
    constructor(width: int, height: int, lib: MathLib)
      requires height != 0
      ensures Valid()
      ensures this.lib == lib && angle == 0.0
      ensures Value(projection) == InitialProjection(width, height, lib)
      ensures Value(modelview) == Identity() && Value(mvp) == Identity()
      ensures fresh(projection) && fresh(modelview) && fresh(mvp)
    {
      this.lib := lib;
      angle := 0.0;
      projection := new real[4, 4];
      modelview := new real[4, 4];
      mvp := new real[4, 4];
      new;
      var aspectRatio := AspectRatio(width, height);
      LoadIdentityMatrix(projection);
      LoadIdentityMatrix(modelview);
      LoadIdentityMatrix(mvp);
      PerspectiveMatrix(projection, ProjectionFovy, aspectRatio, ProjectionNear, ProjectionFar, lib);
    }

    /**
     One frame: modelview is rebuilt from the identity for the current
     angle, the angle advances by one step, and mvp becomes modelview x
     projection. The projection is never touched.
     */
    method Render()
      requires Valid()
      modifies this, modelview, mvp
      ensures Valid()
      ensures angle == NextAngle(old(angle))
      ensures Value(modelview) == ModelView(old(angle), lib)
      ensures Value(mvp) == Mul(Value(modelview), Value(projection))
      ensures unchanged(projection)
    {
      LoadIdentityMatrix(modelview);
      TranslateMatrix(modelview, 0.0, 0.0, -4.0);
      RotationMatrix(modelview, angle, 1.0, 1.0, 0.0, lib);

      angle := angle + Step;
      if angle > 360.0 {
        angle := angle - 360.0;
      }

      MultiplyMatrix(mvp, modelview, projection);
    }
  }

  /**
   The program's frame loop while the app is in the foreground:
   InitializeRender once, then Render n times. After n frames the angle is
   AngleAfter(n), the projection is still the initial one, and once a frame
   has run mvp is the modelview for the angle that frame started with
   times the initial projection. The last frame is taken out of the loop so
   that the loop only has to carry the angle and the projection.
   */
  method RenderFrames(width: int, height: int, lib: MathLib, n: nat) returns (state: RenderState)
    requires height != 0
    ensures state.Valid() && state.lib == lib
    ensures state.angle == AngleAfter(n)
    ensures Value(state.projection) == InitialProjection(width, height, lib)
    ensures n >= 1 ==> Value(state.mvp) == Mul(ModelView(AngleAfter(n - 1), lib), InitialProjection(width, height, lib))
  {
    state := new RenderState(width, height, lib);
    if n >= 1 {
      for k := 0 to n - 1
        invariant state.Valid() && state.lib == lib
        invariant state.angle == AngleAfter(k)
        invariant Value(state.projection) == InitialProjection(width, height, lib)
      {
        state.Render();
      }
      state.Render();
    }
  }
}
