/**
  The approximate-equality rule every IsApproximatelyEqual of the library
  builds on. Values are exact reals; the constant 0.00001 is the real number
  it denotes, not its nearest 32-bit float.
*/
module MathUtility {

  const FloatComparisonEpsilon: real := 0.00001
  const FloatComparisonOneMinusEpsilon: real := 1.0 - FloatComparisonEpsilon

  function Abs(t: real): (r: real)
    ensures 0.0 <= r && (r == t || r == -t)
  {
    if t < 0.0 then -t else t
  }

  /**
    The tolerance used when comparing `a` with another value: epsilon scaled
    by |a|, raised to epsilon when it is smaller. It depends on `a` only.
  */
  function Tolerance(a: real): (t: real)
    ensures FloatComparisonEpsilon <= t
    ensures FloatComparisonEpsilon * Abs(a) <= t
    ensures t == FloatComparisonEpsilon || t == FloatComparisonEpsilon * Abs(a)
  {
    var scaled := FloatComparisonEpsilon * Abs(a);
    if scaled < FloatComparisonEpsilon then FloatComparisonEpsilon else scaled
  }

  /**
    `a` and `b` are approximately equal when they are equal, or when their
    distance is below the tolerance of `a`. With exact arithmetic the equality
    shortcut is subsumed by the distance test.
  */
  function IsApproximatelyEqual(a: real, b: real): (r: bool)
    ensures r <==> Abs(a - b) < Tolerance(a)
  {
    if a == b then true
    else Abs(a - b) < Tolerance(a)
  }

  /** The "one minus epsilon" constant is what its name says. */
  lemma OneMinusEpsilonValue()
    ensures FloatComparisonOneMinusEpsilon + FloatComparisonEpsilon == 1.0
    ensures 0.0 < FloatComparisonOneMinusEpsilon < 1.0
  {
  }

  /** Every value is approximately equal to itself. */
  lemma ApproxReflexive(a: real)
    ensures IsApproximatelyEqual(a, a)
  {
  }

  /** A distance below epsilon is always accepted, whatever the magnitude of `a`. */
  lemma ApproxWithinEpsilon(a: real, b: real)
    requires Abs(a - b) < FloatComparisonEpsilon
    ensures IsApproximatelyEqual(a, b)
  {
  }

  /** For |a| >= 1 the test is relative: accepted exactly when |a - b| < epsilon * |a|. */
  lemma ApproxRelativeForLargeValues(a: real, b: real)
    requires 1.0 <= Abs(a)
    ensures IsApproximatelyEqual(a, b) <==> Abs(a - b) < FloatComparisonEpsilon * Abs(a)
  {
    assert FloatComparisonEpsilon <= FloatComparisonEpsilon * Abs(a);
  }

  /** For |a| <= 1 the test is absolute: accepted exactly when |a - b| < epsilon. */
  lemma ApproxAbsoluteForSmallValues(a: real, b: real)
    requires Abs(a) <= 1.0
    ensures IsApproximatelyEqual(a, b) <==> Abs(a - b) < FloatComparisonEpsilon
  {
    assert FloatComparisonEpsilon * Abs(a) <= FloatComparisonEpsilon;
  }

  /** The rule uses |a| only, so it is not symmetric: 10^6 + 10 is close to itself-minus-10, not the other way. */
  lemma ApproxNotSymmetric()
    ensures IsApproximatelyEqual(1000010.0, 1000000.0)
    ensures !IsApproximatelyEqual(1000000.0, 1000010.0)
  {
    assert Tolerance(1000010.0) == 10.0001;
    assert Tolerance(1000000.0) == 10.0;
  }
}
