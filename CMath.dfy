/**
  The parts of the C math library (<cmath>) the rotation code calls: sin, cos,
  sqrt, atan2, asin and the constant M_PI. Their bodies are not part of this
  model, so they are passed around as a value of type MathLib, and each lemma
  that needs a property of them states that property as a precondition. The
  laws below are the only facts assumed; nothing is said about numeric values.
*/
module CMath {

  datatype MathLib = MathLib(
    sin: real -> real,
    cos: real -> real,
    sqrt: real -> real,
    atan2: (real, real) -> real,
    asin: real -> real,
    pi: real)

  /** sin 0 = 0, cos 0 = 1 and the Pythagorean identity sin^2 + cos^2 = 1. */
  ghost predicate TrigLaws(lib: MathLib) {
    && lib.sin(0.0) == 0.0
    && lib.cos(0.0) == 1.0
    && forall t: real :: lib.sin(t) * lib.sin(t) + lib.cos(t) * lib.cos(t) == 1.0
  }

  /** sqrt is the non-negative square root on the non-negative reals. */
  ghost predicate SqrtLaw(lib: MathLib) {
    forall t: real :: 0.0 <= t ==> 0.0 <= lib.sqrt(t) && lib.sqrt(t) * lib.sqrt(t) == t
  }

  /** M_PI is positive. */
  predicate PiLaw(lib: MathLib) {
    lib.pi > 0.0
  }

  /** atan2(0, 1) = 0: the angle of the positive x axis. */
  predicate Atan2Law(lib: MathLib) {
    lib.atan2(0.0, 1.0) == 0.0
  }

  /** The square root of a positive number is positive, so dividing by it is defined. */
  lemma SqrtPositive(lib: MathLib, t: real)
    requires SqrtLaw(lib)
    requires 0.0 < t
    ensures 0.0 < lib.sqrt(t)
    ensures lib.sqrt(t) * lib.sqrt(t) == t
  {
    assert 0.0 <= lib.sqrt(t) && lib.sqrt(t) * lib.sqrt(t) == t;
  }

  /** The square root of 1 is 1. */
  lemma SqrtOfOne(lib: MathLib)
    requires SqrtLaw(lib)
    ensures lib.sqrt(1.0) == 1.0
  {
    var s := lib.sqrt(1.0);
    assert 0.0 <= s && s * s == 1.0;
    var below, above := s - 1.0, s + 1.0;
    assert below * above == 0.0;
    assert below == below * above / above;
  }
}
