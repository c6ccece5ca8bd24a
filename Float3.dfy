/**
  Float3: a triple of reals used both as a Cartesian vector and as an Euler
  triple (pitch in slot 0, yaw in slot 1, roll in slot 2). The value and the
  by-value operators are pure; the compound operators, which update the three
  fields in place and return the object itself, are methods of Float3Var.
*/
module Vectors {
  import MathUtility
  import opened CMath

  datatype Float3 = Float3(x: real, y: real, z: real)

  // ---------------------------------------------------------------- construction and access

  /** The default constructor: every slot reads 0, and it is neutral for +. */
  function Zero(): (r: Float3)
    ensures forall axis: int :: At(r, axis) == 0.0
    ensures forall v: Float3 :: Add(v, r) == v
  {
    Float3(0.0, 0.0, 0.0)
  }

  /** The one-component constructor fills every slot with the same value. */
  function Splat(c: real): (r: Float3)
    ensures forall axis: int :: At(r, axis) == c
  {
    Float3(c, c, c)
  }

  /** operator[]: 0, 1, 2 select x, y, z; every other index selects x instead of failing. */
  function At(v: Float3, axis: int): (r: real)
    ensures !(0 <= axis < 3) ==> r == v.x
  {
    match axis
    case 0 => v.x
    case 1 => v.y
    case 2 => v.z
    case _ => v.x
  }

  /** The slot that operator[] really touches for a given index. */
  function Slot(axis: int): (s: int)
    ensures 0 <= s < 3
  {
    if 0 <= axis < 3 then axis else 0
  }

  /** Two triples that agree at indices 0, 1 and 2 are the same triple. */
  lemma IndexingDeterminesVector(a: Float3, b: Float3)
    ensures (forall axis | 0 <= axis < 3 :: At(a, axis) == At(b, axis)) <==> a == b
  {
    if forall axis | 0 <= axis < 3 :: At(a, axis) == At(b, axis) {
      assert At(a, 0) == At(b, 0) && At(a, 1) == At(b, 1) && At(a, 2) == At(b, 2);
    }
  }

  function GetPitch(v: Float3): (r: real)
    ensures r == At(v, 0)
  {
    v.x
  }

  function GetYaw(v: Float3): (r: real)
    ensures r == At(v, 1)
  {
    v.y
  }

  function GetRoll(v: Float3): (r: real)
    ensures r == At(v, 2)
  {
    v.z
  }

  // ---------------------------------------------------------------- equality

  /** operator==: component-wise, which for this value type is equality of values. */
  function Equals(a: Float3, b: Float3): (r: bool)
    ensures r <==> a == b
  {
    a.x == b.x && a.y == b.y && a.z == b.z
  }

  /** operator!=: the exact negation of operator==. */
  function NotEquals(a: Float3, b: Float3): (r: bool)
    ensures r <==> !Equals(a, b)
  {
    a.x != b.x || a.y != b.y || a.z != b.z
  }

  /** Approximate equality: the scalar rule at each of the three slots. */
  function IsApproximatelyEqual(a: Float3, b: Float3): (r: bool)
    ensures r <==> forall axis | 0 <= axis < 3 :: MathUtility.IsApproximatelyEqual(At(a, axis), At(b, axis))
    ensures a == b ==> r
  {
    assert At(a, 0) == a.x && At(a, 1) == a.y && At(a, 2) == a.z;
    assert At(b, 0) == b.x && At(b, 1) == b.y && At(b, 2) == b.z;
    MathUtility.IsApproximatelyEqual(a.x, b.x)
    && MathUtility.IsApproximatelyEqual(a.y, b.y)
    && MathUtility.IsApproximatelyEqual(a.z, b.z)
  }

  // ---------------------------------------------------------------- by-value operators

  /** Slot-wise sum: every axis of the result is the sum of that axis of the operands. */
  function Add(a: Float3, b: Float3): (r: Float3)
    ensures forall axis | 0 <= axis < 3 :: At(r, axis) == At(a, axis) + At(b, axis)
  {
    Float3(a.x + b.x, a.y + b.y, a.z + b.z)
  }

  /** Slot-wise difference; adding `b` back gives `a`. */
  function Sub(a: Float3, b: Float3): (r: Float3)
    ensures forall axis | 0 <= axis < 3 :: At(r, axis) == At(a, axis) - At(b, axis)
    ensures Add(r, b) == a
  {
    Float3(a.x - b.x, a.y - b.y, a.z - b.z)
  }

  /** Slot-wise (Hadamard) product. */
  function Mul(a: Float3, b: Float3): (r: Float3)
    ensures forall axis | 0 <= axis < 3 :: At(r, axis) == At(a, axis) * At(b, axis)
  {
    Float3(a.x * b.x, a.y * b.y, a.z * b.z)
  }

  /** Slot-wise quotient; multiplying back by `b` gives `a`. */
  function Div(a: Float3, b: Float3): (r: Float3)
    requires b.x != 0.0 && b.y != 0.0 && b.z != 0.0
    ensures forall axis | 0 <= axis < 3 :: At(r, axis) * At(b, axis) == At(a, axis)
    ensures Mul(r, b) == a
  {
    Float3(a.x / b.x, a.y / b.y, a.z / b.z)
  }

  /** Every slot multiplied by the same scalar. */
  function Scale(v: Float3, s: real): (r: Float3)
    ensures forall axis | 0 <= axis < 3 :: At(r, axis) == At(v, axis) * s
    ensures s == 1.0 ==> r == v
  {
    Float3(v.x * s, v.y * s, v.z * s)
  }

  /** Every slot divided by the same scalar; scaling back by `s` gives `v`. */
  function DivScalar(v: Float3, s: real): (r: Float3)
    requires s != 0.0
    ensures forall axis | 0 <= axis < 3 :: At(r, axis) * s == At(v, axis)
    ensures Scale(r, s) == v
  {
    Float3(v.x / s, v.y / s, v.z / s)
  }

  /** The same scalar added to every slot. */
  function AddScalar(v: Float3, s: real): (r: Float3)
    ensures forall axis | 0 <= axis < 3 :: At(r, axis) == At(v, axis) + s
  {
    Float3(v.x + s, v.y + s, v.z + s)
  }

  /** The same scalar subtracted from every slot; adding it back gives `v`. */
  function SubScalar(v: Float3, s: real): (r: Float3)
    ensures forall axis | 0 <= axis < 3 :: At(r, axis) == At(v, axis) - s
    ensures AddScalar(r, s) == v
  {
    Float3(v.x - s, v.y - s, v.z - s)
  }

  /** + and - between triples undo each other. */
  lemma AddSubInverse(a: Float3, b: Float3)
    ensures Sub(Add(a, b), b) == a
    ensures Add(Sub(a, b), b) == a
  {
  }

  /** * and / between triples undo each other when no divisor slot is zero. */
  lemma MulDivInverse(a: Float3, b: Float3)
    requires b.x != 0.0 && b.y != 0.0 && b.z != 0.0
    ensures Div(Mul(a, b), b) == a
    ensures Mul(Div(a, b), b) == a
  {
  }

  /** Scaling by s and dividing by s undo each other, and both agree with the vector forms. */
  lemma ScaleDivScalarInverse(v: Float3, s: real)
    requires s != 0.0
    ensures DivScalar(Scale(v, s), s) == v
    ensures Scale(DivScalar(v, s), s) == v
  {
    var scaled, divided := Scale(v, s), DivScalar(v, s);
    DivCancelsMul(v.x, s, scaled.x);
    DivCancelsMul(v.y, s, scaled.y);
    DivCancelsMul(v.z, s, scaled.z);
    MulCancelsDiv(v.x, s, divided.x);
    MulCancelsDiv(v.y, s, divided.y);
    MulCancelsDiv(v.z, s, divided.z);
  }

  /** Dividing t * s by the non-zero s gives back t. */
  lemma DivCancelsMul(t: real, s: real, product: real)
    requires s != 0.0 && product == t * s
    ensures product / s == t
  {
  }

  /** Multiplying t / s by the non-zero s gives back t. */
  lemma MulCancelsDiv(t: real, s: real, quotient: real)
    requires s != 0.0 && quotient == t / s
    ensures quotient * s == t
  {
  }

  /** Scaling by s is the component-wise product with the triple (s, s, s); likewise for division. */
  lemma ScalarOpsAreSplatOps(v: Float3, s: real)
    ensures Scale(v, s) == Mul(v, Splat(s))
    ensures s != 0.0 ==> DivScalar(v, s) == Div(v, Splat(s))
  {
  }

  /** Scalar + and - shift every component by the same amount and undo each other. */
  lemma ScalarShift(v: Float3, s: real)
    ensures AddScalar(v, s) == Add(v, Splat(s))
    ensures SubScalar(v, s) == Sub(v, Splat(s))
    ensures SubScalar(AddScalar(v, s), s) == v
  {
  }

  // ---------------------------------------------------------------- length and normalisation

  function LengthSquared(v: Float3): (r: real)
    ensures 0.0 <= r
    ensures r == 0.0 <==> v == Zero()
  {
    SquareNonNegative(v.x);
    SquareNonNegative(v.y);
    SquareNonNegative(v.z);
    v.x * v.x + v.y * v.y + v.z * v.z
  }

  lemma SquareNonNegative(t: real)
    ensures 0.0 <= t * t
    ensures t * t == 0.0 <==> t == 0.0
  {
    if t != 0.0 {
      assert t * t / t == t;
    }
  }

  /** A factor that leaves a non-zero number unchanged is 1. */
  lemma UnitFactor(a: real, b: real, c: real)
    requires c != 0.0 && a * b == c && b == c
    ensures a == 1.0
  {
    assert a * c == c;
    CancelFactor(a, 1.0, c);
  }

  /** A product of two non-zero numbers is non-zero. */
  lemma NonZeroProduct(p: real, a: real, b: real)
    requires p == a * b && a != 0.0 && b != 0.0
    ensures p != 0.0
  {
    assert a * b / b == a;
  }

  /** A non-zero common factor cancels. */
  lemma CancelFactor(p: real, q: real, k: real)
    requires k != 0.0 && p * k == q * k
    ensures p == q
  {
    assert p == p * k / k;
    assert q == q * k / k;
  }

  /** The length is the non-negative root of the sum of squares. */
  function Length(lib: MathLib, v: Float3): (r: real)
    ensures SqrtLaw(lib) ==> 0.0 <= r && r * r == LengthSquared(v)
  {
    lib.sqrt(LengthSquared(v))
  }

  /**
    Normalized: the zero vector is returned as it is, without dividing;
    any other vector is divided by its length, which gives length 1 and the
    same direction (scaling back by the length recovers the input).
  */
  function Normalized(lib: MathLib, v: Float3): (r: Float3)
    requires SqrtLaw(lib)
    ensures v == Zero() ==> r == Zero()
    ensures v != Zero() ==> LengthSquared(r) == 1.0
    ensures v != Zero() ==> Scale(r, Length(lib, v)) == v
  {
    var lengthSquared := LengthSquared(v);
    if lengthSquared == 0.0 then
      Zero()
    else
      SqrtPositive(lib, lengthSquared);
      var len := lib.sqrt(lengthSquared);
      assert len == Length(lib, v);
      DividedByLength(v, len);
      DivScalar(v, len)
  }

  /** Dividing a vector by its (positive) length gives a unit vector that scales back to it. */
  lemma DividedByLength(v: Float3, len: real)
    requires 0.0 < len && len * len == LengthSquared(v)
    ensures LengthSquared(DivScalar(v, len)) == 1.0
    ensures Scale(DivScalar(v, len), len) == v
  {
    var r := DivScalar(v, len);
    assert Scale(r, len) == v;
    ScaledLengthSquared(r, len);
    SquareNonNegative(len);
    UnitFactor(LengthSquared(r), len * len, LengthSquared(v));
  }

  /** Scaling by k multiplies the squared length by k * k. */
  lemma ScaledLengthSquared(v: Float3, k: real)
    ensures LengthSquared(Scale(v, k)) == LengthSquared(v) * (k * k)
  {
  }

  // ---------------------------------------------------------------- remapping and clamping

  /**
    One component remapped in proportion:
    (out - toMin) / (toMax - toMin) = (in - fromMin) / (fromMax - fromMin),
    written without the divisions.
  */
  ghost predicate Remaps(result: real, input: real, fromMin: real, fromMax: real, toMin: real, toMax: real) {
    (result - toMin) * (fromMax - fromMin) == (input - fromMin) * (toMax - toMin)
  }

  /**
    Map: linear remapping of every component from [fromMin, fromMax] to
    [toMin, toMax]. An empty source range yields the zero vector instead of a
    division by zero; otherwise each component keeps its proportion.
  */
  function Map(v: Float3, fromMin: real, fromMax: real, toMin: real, toMax: real): (r: Float3)
    ensures fromMax == fromMin ==> r == Zero()
    ensures fromMax != fromMin ==>
      && Remaps(r.x, v.x, fromMin, fromMax, toMin, toMax)
      && Remaps(r.y, v.y, fromMin, fromMax, toMin, toMax)
      && Remaps(r.z, v.z, fromMin, fromMax, toMin, toMax)
  {
    var fromRange := fromMax - fromMin;
    if fromRange == 0.0 then
      Zero()
    else
      var toRange := toMax - toMin;
      var r := AddScalar(Scale(DivScalar(SubScalar(v, fromMin), fromRange), toRange), toMin);
      MapProportion(v.x, fromMin, fromMax, toMin, toMax);
      MapProportion(v.y, fromMin, fromMax, toMin, toMax);
      MapProportion(v.z, fromMin, fromMax, toMin, toMax);
      r
  }

  lemma MapProportion(t: real, fromMin: real, fromMax: real, toMin: real, toMax: real)
    requires fromMax != fromMin
    ensures Remaps((t - fromMin) / (fromMax - fromMin) * (toMax - toMin) + toMin, t, fromMin, fromMax, toMin, toMax)
  {
    var q := (t - fromMin) / (fromMax - fromMin);
    assert q * (fromMax - fromMin) == t - fromMin;
    assert (q * (toMax - toMin)) * (fromMax - fromMin) == (q * (fromMax - fromMin)) * (toMax - toMin);
  }

  /** Each endpoint of the source range lands on the matching endpoint of the target range. */
  lemma MapEndpoints(fromMin: real, fromMax: real, toMin: real, toMax: real)
    requires fromMin != fromMax
    ensures Map(Splat(fromMin), fromMin, fromMax, toMin, toMax) == Splat(toMin)
    ensures Map(Splat(fromMax), fromMin, fromMax, toMin, toMax) == Splat(toMax)
  {
    MapUnique(Splat(fromMin), fromMin, fromMax, toMin, toMax, Splat(toMin));
    MapUnique(Splat(fromMax), fromMin, fromMax, toMin, toMax, Splat(toMax));
  }

  /** Mapping from one range to another and back returns the input when both ranges are non-empty. */
  lemma MapRoundTrip(v: Float3, fromMin: real, fromMax: real, toMin: real, toMax: real)
    requires fromMin != fromMax && toMin != toMax
    ensures Map(Map(v, fromMin, fromMax, toMin, toMax), toMin, toMax, fromMin, fromMax) == v
  {
    var w := Map(v, fromMin, fromMax, toMin, toMax);
    var u := Map(w, toMin, toMax, fromMin, fromMax);
    RemapsRoundTrip(v.x, w.x, u.x, fromMin, fromMax, toMin, toMax);
    RemapsRoundTrip(v.y, w.y, u.y, fromMin, fromMax, toMin, toMax);
    RemapsRoundTrip(v.z, w.z, u.z, fromMin, fromMax, toMin, toMax);
  }

  /** The proportion law, applied twice with the ranges swapped, recovers the input component. */
  lemma RemapsRoundTrip(t: real, w: real, u: real, fromMin: real, fromMax: real, toMin: real, toMax: real)
    requires fromMin != fromMax && toMin != toMax
    requires Remaps(w, t, fromMin, fromMax, toMin, toMax)
    requires Remaps(u, w, toMin, toMax, fromMin, fromMax)
    ensures u == t
  {
    CancelFactor(u - fromMin, t - fromMin, toMax - toMin);
  }

  /**
    Scalar clamp in the order the library's clamp evaluates it: the lower
    bound wins when the value is below it, then the upper bound.
  */
  function Clamp(t: real, lo: real, hi: real): (r: real)
    ensures lo <= hi ==> lo <= r <= hi
    ensures lo <= t <= hi ==> r == t
    ensures t < lo ==> r == lo
    ensures lo <= t && hi < t ==> r == hi
  {
    if t < lo then lo else if hi < t then hi else t
  }

  /**
    Clamped: component-wise clamp between `min` and `max`. Each slot is the
    scalar clamp of that slot, so a component below its lower bound becomes
    the lower bound and one above its upper bound becomes the upper bound.
  */
  function Clamped(v: Float3, min: Float3, max: Float3): (r: Float3)
    ensures forall axis | 0 <= axis < 3 :: At(r, axis) == Clamp(At(v, axis), At(min, axis), At(max, axis))
    ensures forall axis | 0 <= axis < 3 ::
      (At(min, axis) <= At(max, axis) ==> At(min, axis) <= At(r, axis) <= At(max, axis))
      && (At(min, axis) <= At(v, axis) <= At(max, axis) ==> At(r, axis) == At(v, axis))
      && (At(v, axis) < At(min, axis) ==> At(r, axis) == At(min, axis))
      && (At(min, axis) <= At(v, axis) && At(max, axis) < At(v, axis) ==> At(r, axis) == At(max, axis))
  {
    Float3(Clamp(v.x, min.x, max.x), Clamp(v.y, min.y, max.y), Clamp(v.z, min.z, max.z))
  }

  /**
    Clamping twice with the same bounds is the same as clamping once, when the
    bounds are in order (with min above max a second clamp moves min to max).
  */
  lemma ClampedIdempotent(v: Float3, min: Float3, max: Float3)
    requires min.x <= max.x && min.y <= max.y && min.z <= max.z
    ensures Clamped(Clamped(v, min, max), min, max) == Clamped(v, min, max)
  {
  }

  // ---------------------------------------------------------------- angle units

  /** Radians to degrees: every component times 180 / pi, so degrees * pi = radians * 180. */
  function EulerDegrees(lib: MathLib, v: Float3): (r: Float3)
    requires PiLaw(lib)
    ensures forall axis: int :: At(r, axis) * lib.pi == At(v, axis) * 180.0
  {
    var toDeg := 180.0 / lib.pi;
    assert toDeg * lib.pi == 180.0;
    Scale(v, toDeg)
  }

  /** Degrees to radians: every component times pi / 180, so radians * 180 = degrees * pi. */
  function EulerRadians(lib: MathLib, v: Float3): (r: Float3)
    requires PiLaw(lib)
    ensures forall axis: int :: At(r, axis) * 180.0 == At(v, axis) * lib.pi
  {
    Scale(v, lib.pi / 180.0)
  }

  /** The two unit conversions undo each other exactly. */
  lemma EulerUnitsRoundTrip(lib: MathLib, v: Float3)
    requires PiLaw(lib)
    ensures EulerRadians(lib, EulerDegrees(lib, v)) == v
    ensures EulerDegrees(lib, EulerRadians(lib, v)) == v
  {
    var toDeg := 180.0 / lib.pi;
    var toRad := lib.pi / 180.0;
    assert toDeg * toRad == 1.0;
    assert v.x * toDeg * toRad == v.x * (toDeg * toRad) && v.x * toRad * toDeg == v.x * (toDeg * toRad);
    assert v.y * toDeg * toRad == v.y * (toDeg * toRad) && v.y * toRad * toDeg == v.y * (toDeg * toRad);
    assert v.z * toDeg * toRad == v.z * (toDeg * toRad) && v.z * toRad * toDeg == v.z * (toDeg * toRad);
  }

  /** Remapping [-180, 180] onto [-pi, pi] is exactly the degree-to-radian conversion. */
  lemma MapDegreesOntoSymmetricRadians(lib: MathLib, v: Float3)
    requires PiLaw(lib)
    ensures Map(v, -180.0, 180.0, -lib.pi, lib.pi) == EulerRadians(lib, v)
  {
    var r := Map(v, -180.0, 180.0, -lib.pi, lib.pi);
    DegreeRemapsToRadians(lib.pi, v.x, r.x, -lib.pi, lib.pi, 0.0);
    DegreeRemapsToRadians(lib.pi, v.y, r.y, -lib.pi, lib.pi, 0.0);
    DegreeRemapsToRadians(lib.pi, v.z, r.z, -lib.pi, lib.pi, 0.0);
  }

  /** Remapping [-180, 180] onto [0, 2 pi] converts the angles shifted by 180 degrees. */
  lemma MapDegreesOntoPositiveRadians(lib: MathLib, v: Float3)
    requires PiLaw(lib)
    ensures Map(v, -180.0, 180.0, 0.0, lib.pi * 2.0) == EulerRadians(lib, AddScalar(v, 180.0))
  {
    var r := Map(v, -180.0, 180.0, 0.0, lib.pi * 2.0);
    DegreeRemapsToRadians(lib.pi, v.x, r.x, 0.0, lib.pi * 2.0, 180.0);
    DegreeRemapsToRadians(lib.pi, v.y, r.y, 0.0, lib.pi * 2.0, 180.0);
    DegreeRemapsToRadians(lib.pi, v.z, r.z, 0.0, lib.pi * 2.0, 180.0);
  }

  /**
    A degree value remapped from [-180, 180] onto a radian range of width
    2 pi whose lower end is the radian value of shift - 180 degrees is the
    radian value of the degree value plus shift.
  */
  lemma DegreeRemapsToRadians(pi: real, t: real, o: real, toMin: real, toMax: real, shift: real)
    requires pi > 0.0
    requires toMax - toMin == 2.0 * pi && toMin * 180.0 == (shift - 180.0) * pi
    requires Remaps(o, t, -180.0, 180.0, toMin, toMax)
    ensures o == (t + shift) * (pi / 180.0)
  {
    var e := (t + shift) * (pi / 180.0);
    assert e * 180.0 == (t + shift) * pi;
    assert (o - toMin) * 360.0 == (t + 180.0) * (2.0 * pi);
    assert (o - toMin) * 180.0 == (t + 180.0) * pi;
    assert o * 180.0 == e * 180.0;
    CancelFactor(o, e, 180.0);
  }

  /**
    When the source range is not empty, Map returns the one triple whose
    components all satisfy the proportion: together with Map's own contract,
    Map(v, ...) == r exactly when every component of r remaps its input.
  */
  lemma MapUnique(v: Float3, fromMin: real, fromMax: real, toMin: real, toMax: real, r: Float3)
    requires fromMax != fromMin
    requires Remaps(r.x, v.x, fromMin, fromMax, toMin, toMax)
    requires Remaps(r.y, v.y, fromMin, fromMax, toMin, toMax)
    requires Remaps(r.z, v.z, fromMin, fromMax, toMin, toMax)
    ensures Map(v, fromMin, fromMax, toMin, toMax) == r
  {
    var m := Map(v, fromMin, fromMax, toMin, toMax);
    RemapsUnique(m.x, r.x, v.x, fromMin, fromMax, toMin, toMax);
    RemapsUnique(m.y, r.y, v.y, fromMin, fromMax, toMin, toMax);
    RemapsUnique(m.z, r.z, v.z, fromMin, fromMax, toMin, toMax);
  }

  /** Remaps determines the result when the source range is not empty. */
  lemma RemapsUnique(r: real, s: real, input: real, fromMin: real, fromMax: real, toMin: real, toMax: real)
    requires fromMax != fromMin
    requires Remaps(r, input, fromMin, fromMax, toMin, toMax)
    requires Remaps(s, input, fromMin, fromMax, toMin, toMax)
    ensures r == s
  {
    CancelFactor(r - toMin, s - toMin, fromMax - fromMin);
  }

  /** Zero, remapped from [-1, 1] onto [-pi, pi], stays zero. */
  lemma MapAngleExamples(lib: MathLib)
    requires PiLaw(lib)
    ensures Map(Zero(), -1.0, 1.0, -lib.pi, lib.pi) == Zero()
  {
    assert (0.0 - -1.0) / 2.0 == 0.5;
  }

  /** Zero, remapped from [-pi, pi] onto [0, 2pi], lands on pi in every slot. */
  lemma MapShiftedAngleExample(lib: MathLib)
    requires PiLaw(lib)
    ensures Map(Zero(), -lib.pi, lib.pi, 0.0, lib.pi * 2.0) == Splat(lib.pi)
  {
    var pi := lib.pi;
    assert (0.0 - -pi) / (pi - -pi) == 0.5;
  }

  /** The clamps the library's tests check, including bounds given in the wrong order. */
  lemma ClampedExamples()
    ensures Clamped(Splat(5.0), Splat(5.0), Splat(5.0)) == Splat(5.0)
    ensures Clamped(Splat(5.0), Splat(-10.0), Splat(5.0)) == Splat(5.0)
    ensures Clamped(Splat(5.0), Splat(-10.0), Float3(1.0, 2.0, 3.0)) == Float3(1.0, 2.0, 3.0)
    ensures Clamped(Splat(5.0), Splat(-10.0), Splat(-10.0)) == Splat(-10.0)
    ensures Clamped(Splat(5.0), Splat(10.0), Splat(10.0)) == Splat(10.0)
    ensures Clamped(Zero(), Float3(1.0, 2.0, 3.0), Splat(10.0)) == Float3(1.0, 2.0, 3.0)
    ensures Clamped(Zero(), Splat(10.0), Float3(1.0, 2.0, 3.0)) == Splat(10.0)
  {
  }

  // ---------------------------------------------------------------- in-place operators

  /**
    A Float3 object updated in place by the compound operators. Each operator
    reads a slot of the right-hand side before it overwrites the same slot of
    this object, so the right-hand side may be this object itself.
  */
  class Float3Var {
    var x: real
    var y: real
    var z: real

    function Value(): Float3
      reads this
    {
      Float3(x, y, z)
    }

    constructor (v: Float3)
      ensures Value() == v
    {
      x, y, z := v.x, v.y, v.z;
    }

    method AddAssign(rhs: Float3Var) returns (self: Float3Var)
      modifies this
      ensures self == this
      ensures Value() == Add(old(Value()), old(rhs.Value()))
    {
      x := x + rhs.x;
      y := y + rhs.y;
      z := z + rhs.z;
      self := this;
    }

    method SubAssign(rhs: Float3Var) returns (self: Float3Var)
      modifies this
      ensures self == this
      ensures Value() == Sub(old(Value()), old(rhs.Value()))
    {
      x := x - rhs.x;
      y := y - rhs.y;
      z := z - rhs.z;
      self := this;
    }

    method MulAssign(rhs: Float3Var) returns (self: Float3Var)
      modifies this
      ensures self == this
      ensures Value() == Mul(old(Value()), old(rhs.Value()))
    {
      x := x * rhs.x;
      y := y * rhs.y;
      z := z * rhs.z;
      self := this;
    }

    method DivAssign(rhs: Float3Var) returns (self: Float3Var)
      requires rhs.x != 0.0 && rhs.y != 0.0 && rhs.z != 0.0
      modifies this
      ensures self == this
      ensures Value() == Div(old(Value()), old(rhs.Value()))
    {
      x := x / rhs.x;
      y := y / rhs.y;
      z := z / rhs.z;
      self := this;
    }

    method ScaleAssign(s: real) returns (self: Float3Var)
      modifies this
      ensures self == this
      ensures Value() == Scale(old(Value()), s)
    {
      x := x * s;
      y := y * s;
      z := z * s;
      self := this;
    }

    method DivScalarAssign(s: real) returns (self: Float3Var)
      requires s != 0.0
      modifies this
      ensures self == this
      ensures Value() == DivScalar(old(Value()), s)
    {
      x := x / s;
      y := y / s;
      z := z / s;
      self := this;
    }

    /** Writing through the non-const operator[]: index 0, 1, 2 or, for any other index, slot 0. */
    method SetAt(axis: int, t: real)
      modifies this
      ensures At(Value(), axis) == t
      ensures forall i | 0 <= i < 3 && i != Slot(axis) :: At(Value(), i) == At(old(Value()), i)
    {
      match axis
      case 1 => y := t;
      case 2 => z := t;
      case _ => x := t;
    }
  }
}
