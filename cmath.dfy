/**
 The C math library functions the matrix routines call. Their exact values
 are not part of this model: a `MathLib` value carries `sinf`, `cosf` and
 `sqrtf` as arbitrary total functions, and the predicates below state the
 few facts about them that a lemma may assume.
 */
module CMath {

  /** `sinf`, `cosf` and `sqrtf` from <math.h>, taken as caller-supplied functions. */
  datatype MathLib = MathLib(sinf: real -> real, cosf: real -> real, sqrtf: real -> real)

  /** `M_PI` from <math.h>, the constant the degree-to-radian conversions use. */
  const Pi: real := 3.14159265358979323846

  /** Degrees to radians, as `angle * (float)M_PI / 180.0f` does it. */
  function Radians(degrees: real): real
  {
    degrees * Pi / 180.0
  }

  /** The only fact about `sqrtf` the guards need: the root is positive exactly for positive arguments. */
  ghost predicate SqrtSignExact(lib: MathLib)
  {
    forall s: real :: lib.sqrtf(s) > 0.0 <==> s > 0.0
  }

  /** `sqrtf` returns the true square root of a non-negative argument. */
  ghost predicate SqrtIsRoot(lib: MathLib)
  {
    forall s: real :: s >= 0.0 ==> lib.sqrtf(s) >= 0.0 && lib.sqrtf(s) * lib.sqrtf(s) == s
  }

  /** sin^2 + cos^2 == 1 at every argument. */
  ghost predicate Pythagorean(lib: MathLib)
  {
    forall t: real :: lib.sinf(t) * lib.sinf(t) + lib.cosf(t) * lib.cosf(t) == 1.0
  }
}
