/**
  Quaternion (w, x, y, z): the Hamilton product, its conjugate inverse, dot
  product and norm, the conversion from an Euler triple and the branch
  structure of the conversion back. The value and its by-value operators are
  pure; the compound operators that update the four fields in place are
  methods of QuaternionVar.
*/
module Quaternions {
  import MathUtility
  import opened CMath
  import V = Vectors
  import HamiltonIdentities

  datatype Quaternion = Quaternion(w: real, x: real, y: real, z: real)

  // ---------------------------------------------------------------- construction and access

  /** The default constructor (1, 0, 0, 0): the neutral element of the product on both sides. */
  function Identity(): (r: Quaternion)
    ensures forall q: Quaternion :: Mul(r, q) == q && Mul(q, r) == q
  {
    Quaternion(1.0, 0.0, 0.0, 0.0)
  }

  /** operator[]: 0, 1, 2, 3 select w, x, y, z; every other index selects w instead of failing. */
  function At(q: Quaternion, axis: int): (r: real)
    ensures !(0 <= axis < 4) ==> r == q.w
  {
    match axis
    case 0 => q.w
    case 1 => q.x
    case 2 => q.y
    case 3 => q.z
    case _ => q.w
  }

  /** The slot that operator[] really touches for a given index. */
  function Slot(axis: int): (s: int)
    ensures 0 <= s < 4
  {
    if 0 <= axis < 4 then axis else 0
  }

  /** Two quaternions that agree at indices 0 to 3 are the same quaternion. */
  lemma IndexingDeterminesQuaternion(a: Quaternion, b: Quaternion)
    ensures (forall axis | 0 <= axis < 4 :: At(a, axis) == At(b, axis)) <==> a == b
  {
    if forall axis | 0 <= axis < 4 :: At(a, axis) == At(b, axis) {
      assert At(a, 0) == At(b, 0) && At(a, 1) == At(b, 1) && At(a, 2) == At(b, 2) && At(a, 3) == At(b, 3);
    }
  }

  // ---------------------------------------------------------------- equality

  /** operator==: component-wise, which for this value type is equality of values. */
  function Equals(a: Quaternion, b: Quaternion): (r: bool)
    ensures r <==> a == b
  {
    a.w == b.w && a.x == b.x && a.y == b.y && a.z == b.z
  }

  /** operator!=: the exact negation of operator==. */
  function NotEquals(a: Quaternion, b: Quaternion): (r: bool)
    ensures r <==> !Equals(a, b)
  {
    a.w != b.w || a.x != b.x || a.y != b.y || a.z != b.z
  }

  /** Approximate equality: the scalar rule at each of the four slots. */
  function IsApproximatelyEqual(a: Quaternion, b: Quaternion): (r: bool)
    ensures r <==> forall axis | 0 <= axis < 4 :: MathUtility.IsApproximatelyEqual(At(a, axis), At(b, axis))
    ensures a == b ==> r
  {
    assert At(a, 0) == a.w && At(a, 1) == a.x && At(a, 2) == a.y && At(a, 3) == a.z;
    assert At(b, 0) == b.w && At(b, 1) == b.x && At(b, 2) == b.y && At(b, 3) == b.z;
    MathUtility.IsApproximatelyEqual(a.w, b.w)
    && MathUtility.IsApproximatelyEqual(a.x, b.x)
    && MathUtility.IsApproximatelyEqual(a.y, b.y)
    && MathUtility.IsApproximatelyEqual(a.z, b.z)
  }

  // ---------------------------------------------------------------- sums and the Hamilton product

  /** Slot-wise sum. */
  function Add(a: Quaternion, b: Quaternion): (r: Quaternion)
    ensures forall axis | 0 <= axis < 4 :: At(r, axis) == At(a, axis) + At(b, axis)
  {
    Quaternion(a.w + b.w, a.x + b.x, a.y + b.y, a.z + b.z)
  }

  /** Slot-wise difference; adding `b` back gives `a`. */
  function Sub(a: Quaternion, b: Quaternion): (r: Quaternion)
    ensures forall axis | 0 <= axis < 4 :: At(r, axis) == At(a, axis) - At(b, axis)
    ensures Add(r, b) == a
  {
    Quaternion(a.w - b.w, a.x - b.x, a.y - b.y, a.z - b.z)
  }

  /** + and - undo each other. */
  lemma AddSubInverse(a: Quaternion, b: Quaternion)
    ensures Sub(Add(a, b), b) == a
    ensures Add(Sub(a, b), b) == a
  {
  }

  /** The Hamilton product a * b; a factor with no vector part acts as a plain scalar. */
  function Mul(a: Quaternion, b: Quaternion): (r: Quaternion)
    ensures a.x == 0.0 && a.y == 0.0 && a.z == 0.0 ==> r == Scale(b, a.w)
    ensures b.x == 0.0 && b.y == 0.0 && b.z == 0.0 ==> r == Scale(a, b.w)
  {
    Quaternion(
      a.w * b.w - a.x * b.x - a.y * b.y - a.z * b.z,
      a.w * b.x + a.x * b.w + a.y * b.z - a.z * b.y,
      a.w * b.y + a.y * b.w + a.z * b.x - a.x * b.z,
      a.w * b.z + a.z * b.w + a.x * b.y - a.y * b.x)
  }

  /** The product is associative, so a chain such as yaw * pitch * roll has one meaning. */
  lemma {:induction false} MulAssociative(a: Quaternion, b: Quaternion, c: Quaternion)
    ensures Mul(Mul(a, b), c) == Mul(a, Mul(b, c))
  {
    MulAssociativeW(a, b, c);
    MulAssociativeX(a, b, c);
    MulAssociativeY(a, b, c);
    MulAssociativeZ(a, b, c);
  }

  lemma MulAssociativeW(a: Quaternion, b: Quaternion, c: Quaternion)
    ensures Mul(Mul(a, b), c).w == Mul(a, Mul(b, c)).w
  {
    var ab, bc := Mul(a, b), Mul(b, c);
    MulFields(a, b);
    MulFields(b, c);
    HamiltonIdentities.AssociativeW(
      a.w, a.x, a.y, a.z, b.w, b.x, b.y, b.z, c.w, c.x, c.y, c.z,
      ab.w, ab.x, ab.y, ab.z, bc.w, bc.x, bc.y, bc.z);
  }

  lemma MulAssociativeX(a: Quaternion, b: Quaternion, c: Quaternion)
    ensures Mul(Mul(a, b), c).x == Mul(a, Mul(b, c)).x
  {
    var ab, bc := Mul(a, b), Mul(b, c);
    MulFields(a, b);
    MulFields(b, c);
    HamiltonIdentities.AssociativeX(
      a.w, a.x, a.y, a.z, b.w, b.x, b.y, b.z, c.w, c.x, c.y, c.z,
      ab.w, ab.x, ab.y, ab.z, bc.w, bc.x, bc.y, bc.z);
  }

  lemma MulAssociativeY(a: Quaternion, b: Quaternion, c: Quaternion)
    ensures Mul(Mul(a, b), c).y == Mul(a, Mul(b, c)).y
  {
    var ab, bc := Mul(a, b), Mul(b, c);
    MulFields(a, b);
    MulFields(b, c);
    HamiltonIdentities.AssociativeY(
      a.w, a.x, a.y, a.z, b.w, b.x, b.y, b.z, c.w, c.x, c.y, c.z,
      ab.w, ab.x, ab.y, ab.z, bc.w, bc.x, bc.y, bc.z);
  }

  lemma MulAssociativeZ(a: Quaternion, b: Quaternion, c: Quaternion)
    ensures Mul(Mul(a, b), c).z == Mul(a, Mul(b, c)).z
  {
    var ab, bc := Mul(a, b), Mul(b, c);
    MulFields(a, b);
    MulFields(b, c);
    HamiltonIdentities.AssociativeZ(
      a.w, a.x, a.y, a.z, b.w, b.x, b.y, b.z, c.w, c.x, c.y, c.z,
      ab.w, ab.x, ab.y, ab.z, bc.w, bc.x, bc.y, bc.z);
  }

  /** The four components of a product, as separate facts. */
  lemma MulFields(a: Quaternion, b: Quaternion)
    ensures Mul(a, b).w == a.w * b.w - a.x * b.x - a.y * b.y - a.z * b.z
    ensures Mul(a, b).x == a.w * b.x + a.x * b.w + a.y * b.z - a.z * b.y
    ensures Mul(a, b).y == a.w * b.y + a.y * b.w + a.z * b.x - a.x * b.z
    ensures Mul(a, b).z == a.w * b.z + a.z * b.w + a.x * b.y - a.y * b.x
  {
  }
  /**
    The product is not commutative: swapping the operands keeps w and changes
    the vector part by twice the cross product of the operands' vector parts,
    so two quaternions commute exactly when their vector parts are parallel
    (i * j = k but j * i = -k).
  */
  lemma MulNotCommutative(a: Quaternion, b: Quaternion)
    ensures Mul(a, b).w == Mul(b, a).w
    ensures Mul(a, b).x - Mul(b, a).x == 2.0 * (a.y * b.z - a.z * b.y)
    ensures Mul(a, b).y - Mul(b, a).y == 2.0 * (a.z * b.x - a.x * b.z)
    ensures Mul(a, b).z - Mul(b, a).z == 2.0 * (a.x * b.y - a.y * b.x)
    ensures Mul(a, b) == Mul(b, a) <==> a.y * b.z == a.z * b.y && a.z * b.x == a.x * b.z && a.x * b.y == a.y * b.x
  {
    MulFields(a, b);
    MulFields(b, a);
  }

  /** In particular i * j differs from j * i. */
  lemma BasisProductsDiffer()
    ensures Mul(Quaternion(0.0, 1.0, 0.0, 0.0), Quaternion(0.0, 0.0, 1.0, 0.0))
         != Mul(Quaternion(0.0, 0.0, 1.0, 0.0), Quaternion(0.0, 1.0, 0.0, 0.0))
  {
    MulNotCommutative(Quaternion(0.0, 1.0, 0.0, 0.0), Quaternion(0.0, 0.0, 1.0, 0.0));
  }

  // ---------------------------------------------------------------- inverse, dot product, norm

  /** Inversed: the conjugate, which is the inverse of a unit quaternion. */
  function Inversed(q: Quaternion): (r: Quaternion)
    ensures r.w == q.w && forall axis | 1 <= axis < 4 :: At(r, axis) == -At(q, axis)
    ensures Add(q, r) == Quaternion(2.0 * q.w, 0.0, 0.0, 0.0)
  {
    Quaternion(q.w, -q.x, -q.y, -q.z)
  }

  /** The sum of the slot-wise products; never negative for a quaternion with itself. */
  function DotProduct(a: Quaternion, b: Quaternion): (r: real)
    ensures a == b ==> 0.0 <= r
  {
    V.SquareNonNegative(a.w);
    V.SquareNonNegative(a.x);
    V.SquareNonNegative(a.y);
    V.SquareNonNegative(a.z);
    a.w * b.w + a.x * b.x + a.y * b.y + a.z * b.z
  }

  /** The squared length is the dot product with itself; it is zero only for the zero quaternion. */
  function LengthSquared(q: Quaternion): (r: real)
    ensures 0.0 <= r
    ensures r == 0.0 <==> q == Quaternion(0.0, 0.0, 0.0, 0.0)
  {
    V.SquareNonNegative(q.w);
    V.SquareNonNegative(q.x);
    V.SquareNonNegative(q.y);
    V.SquareNonNegative(q.z);
    DotProduct(q, q)
  }

  /** The length is the non-negative root of the squared length. */
  function Length(lib: MathLib, q: Quaternion): (r: real)
    ensures SqrtLaw(lib) ==> 0.0 <= r && r * r == LengthSquared(q)
  {
    lib.sqrt(LengthSquared(q))
  }

  /** A quaternion of length 1. */
  predicate IsUnit(q: Quaternion) {
    LengthSquared(q) == 1.0
  }

  /** The dot product is symmetric. */
  lemma DotProductSymmetric(a: Quaternion, b: Quaternion)
    ensures DotProduct(a, b) == DotProduct(b, a)
  {
  }

  /** q * q.Inversed() and q.Inversed() * q are both (|q|^2, 0, 0, 0): the identity when q is unit. */
  lemma MulInversed(q: Quaternion)
    ensures Mul(q, Inversed(q)) == Quaternion(LengthSquared(q), 0.0, 0.0, 0.0)
    ensures Mul(Inversed(q), q) == Quaternion(LengthSquared(q), 0.0, 0.0, 0.0)
    ensures IsUnit(q) ==> Mul(q, Inversed(q)) == Identity() && Mul(Inversed(q), q) == Identity()
  {
  }

  /** Inversion maps the identity to itself. */
  lemma InversedIdentity()
    ensures Inversed(Identity()) == Identity()
  {
  }

  /** Inversion is an involution. */
  lemma InversedInvolution(a: Quaternion)
    ensures Inversed(Inversed(a)) == a
  {
  }

  /** Inversion keeps the norm, so the inverse of a unit quaternion is unit. */
  lemma InversedLengthSquared(a: Quaternion)
    ensures LengthSquared(Inversed(a)) == LengthSquared(a)
  {
  }

  /** The inverse of a product is the product of the inverses in reverse order. */
  lemma InversedMul(a: Quaternion, b: Quaternion)
    ensures Inversed(Mul(a, b)) == Mul(Inversed(b), Inversed(a))
  {
    MulFields(a, b);
    MulFields(Inversed(b), Inversed(a));
  }

  /** The squared length of a product is the product of the squared lengths. */
  lemma {:induction false} LengthSquaredMul(a: Quaternion, b: Quaternion)
    ensures LengthSquared(Mul(a, b)) == LengthSquared(a) * LengthSquared(b)
  {
    var p := Mul(a, b);
    MulFields(a, b);
    LengthSquaredFields(a);
    LengthSquaredFields(b);
    LengthSquaredFields(p);
    HamiltonIdentities.FourSquares(
      a.w, a.x, a.y, a.z, b.w, b.x, b.y, b.z, p.w, p.x, p.y, p.z, LengthSquared(a), LengthSquared(b));
  }

  /** Products of non-zero quaternions are non-zero. */
  lemma MulNonZero(a: Quaternion, b: Quaternion)
    requires LengthSquared(a) != 0.0 && LengthSquared(b) != 0.0
    ensures LengthSquared(Mul(a, b)) != 0.0
  {
    LengthSquaredMul(a, b);
    V.NonZeroProduct(LengthSquared(Mul(a, b)), LengthSquared(a), LengthSquared(b));
  }

  /** Products of unit quaternions are unit. */
  lemma UnitMul(a: Quaternion, b: Quaternion)
    requires IsUnit(a) && IsUnit(b)
    ensures IsUnit(Mul(a, b))
  {
    LengthSquaredMul(a, b);
  }

  // ---------------------------------------------------------------- scalar operators

  /** The in-place *= by a scalar: every component scaled, in place. */
  function Scale(q: Quaternion, s: real): (r: Quaternion)
    ensures forall axis | 0 <= axis < 4 :: At(r, axis) == At(q, axis) * s
    ensures s == 0.0 ==> r == Quaternion(0.0, 0.0, 0.0, 0.0)
  {
    Quaternion(q.w * s, q.x * s, q.y * s, q.z * s)
  }

  /** The in-place /= by a scalar: every component divided, in place. */
  function DivideBy(q: Quaternion, s: real): (r: Quaternion)
    requires s != 0.0
    ensures forall axis | 0 <= axis < 4 :: At(r, axis) * s == At(q, axis)
    ensures Scale(r, s) == q
  {
    V.MulCancelsDiv(q.w, s, q.w / s);
    V.MulCancelsDiv(q.x, s, q.x / s);
    V.MulCancelsDiv(q.y, s, q.y / s);
    V.MulCancelsDiv(q.z, s, q.z / s);
    Quaternion(q.w / s, q.x / s, q.y / s, q.z / s)
  }

  /** Scaling by 1 changes nothing. */
  lemma ScaleByOne(q: Quaternion)
    ensures Scale(q, 1.0) == q
  {
  }

  /** Dividing by a non-zero scalar undoes scaling by it, and the other way round. */
  lemma ScaleDivideByInverse(q: Quaternion, s: real)
    requires s != 0.0
    ensures DivideBy(Scale(q, s), s) == q
    ensures Scale(DivideBy(q, s), s) == q
  {
    var scaled, divided := Scale(q, s), DivideBy(q, s);
    V.DivCancelsMul(q.w, s, scaled.w);
    V.DivCancelsMul(q.x, s, scaled.x);
    V.DivCancelsMul(q.y, s, scaled.y);
    V.DivCancelsMul(q.z, s, scaled.z);
    V.MulCancelsDiv(q.w, s, divided.w);
    V.MulCancelsDiv(q.x, s, divided.x);
    V.MulCancelsDiv(q.y, s, divided.y);
    V.MulCancelsDiv(q.z, s, divided.z);
  }

  /** Scaling by s scales the squared length by s^2. */
  lemma LengthSquaredScale(q: Quaternion, s: real)
    ensures LengthSquared(Scale(q, s)) == LengthSquared(q) * (s * s)
  {
    var r := Scale(q, s);
    LengthSquaredFields(q);
    LengthSquaredFields(r);
    HamiltonIdentities.ScaledSquares(q.w, q.x, q.y, q.z, s, LengthSquared(q), r.w, r.x, r.y, r.z);
  }

  /** The squared length as the sum of the four squares. */
  lemma LengthSquaredFields(q: Quaternion)
    ensures LengthSquared(q) == q.w * q.w + q.x * q.x + q.y * q.y + q.z * q.z
  {
  }

  /**
    The by-value operator* with a scalar, as written: the scaled x, y, z and w
    land in slots w, x, y and z, so the components are rotated by one slot.
  */
  function TimesScalar(q: Quaternion, s: real): (r: Quaternion)
    ensures r == RotateSlots(Scale(q, s))
  {
    Quaternion(q.x * s, q.y * s, q.z * s, q.w * s)
  }

  /** The by-value operator/ with a scalar, as written: rotated like TimesScalar. */
  function OverScalar(q: Quaternion, s: real): (r: Quaternion)
    requires s != 0.0
    ensures r == RotateSlots(DivideBy(q, s))
  {
    Quaternion(q.x / s, q.y / s, q.z / s, q.w / s)
  }

  /** Moves x, y, z, w into slots w, x, y, z. */
  function RotateSlots(q: Quaternion): (r: Quaternion)
    ensures LengthSquared(r) == LengthSquared(q)
    ensures forall axis | 0 <= axis < 4 :: At(r, axis) == At(q, (axis + 1) % 4)
  {
    Quaternion(q.x, q.y, q.z, q.w)
  }

  /** The rotation is visible: multiplying the identity by 1 gives (0, 0, 0, 1). */
  lemma TimesScalarReordersComponents()
    ensures TimesScalar(Identity(), 1.0) == Quaternion(0.0, 0.0, 0.0, 1.0)
    ensures TimesScalar(Identity(), 1.0) != Identity()
    ensures OverScalar(Identity(), 1.0) != Identity()
  {
  }

  /** The intended by-value scalar product agrees with the in-place *= and leaves the slots in place. */
  function CorrectedTimesScalar(q: Quaternion, s: real): (r: Quaternion)
    ensures s == 1.0 ==> r == q
    ensures forall axis | 0 <= axis < 4 :: At(r, axis) == At(q, axis) * s
    ensures r == Scale(q, s)
  {
    Scale(q, s)
  }

  /** The intended by-value scalar division agrees with the in-place /= and inverts CorrectedTimesScalar. */
  function CorrectedOverScalar(q: Quaternion, s: real): (r: Quaternion)
    requires s != 0.0
    ensures forall axis | 0 <= axis < 4 :: At(r, axis) * s == At(q, axis)
    ensures r == DivideBy(q, s)
    ensures CorrectedTimesScalar(r, s) == q
  {
    ScaleDivideByInverse(q, s);
    DivideBy(q, s)
  }

  /**
    Normalized, as written: divides by the length through the rotating
    operator/, so the result has length 1 but its components sit one slot
    off from the intended unit quaternion.
  */
  function Normalized(lib: MathLib, q: Quaternion): (r: Quaternion)
    requires SqrtLaw(lib)
    requires LengthSquared(q) != 0.0
    ensures IsUnit(r)
    ensures r == RotateSlots(CorrectedNormalized(lib, q))
  {
    SqrtPositive(lib, LengthSquared(q));
    var corrected := CorrectedNormalized(lib, q);
    assert OverScalar(q, Length(lib, q)) == RotateSlots(corrected);
    OverScalar(q, Length(lib, q))
  }

  /** Normalizing the identity, as written, does not return the identity. */
  lemma NormalizedIdentityIsRotated(lib: MathLib)
    requires SqrtLaw(lib)
    ensures Normalized(lib, Identity()) == Quaternion(0.0, 0.0, 0.0, 1.0)
    ensures Normalized(lib, Identity()) != Identity()
  {
    SqrtOfOne(lib);
  }

  /** The intended normalization: the quaternion divided by its length, a unit quaternion that scales back to q. */
  function CorrectedNormalized(lib: MathLib, q: Quaternion): (r: Quaternion)
    requires SqrtLaw(lib)
    requires LengthSquared(q) != 0.0
    ensures IsUnit(r)
    ensures Scale(r, Length(lib, q)) == q
    ensures IsUnit(q) ==> r == q
  {
    var lengthSquared := LengthSquared(q);
    SqrtPositive(lib, lengthSquared);
    var len := lib.sqrt(lengthSquared);
    DividedByLength(q, len);
    SqrtOfOne(lib);
    DivideBy(q, len)
  }

  /** Dividing a quaternion by its (positive) length gives a unit quaternion that scales back to it. */
  lemma DividedByLength(q: Quaternion, len: real)
    requires 0.0 < len && len * len == LengthSquared(q)
    ensures IsUnit(DivideBy(q, len))
    ensures Scale(DivideBy(q, len), len) == q
  {
    var r := DivideBy(q, len);
    ScaleDivideByInverse(q, len);
    LengthSquaredScale(r, len);
    V.SquareNonNegative(len);
    V.UnitFactor(LengthSquared(r), len * len, LengthSquared(q));
  }

  // ---------------------------------------------------------------- Euler conversions

  /**
    FromEulerRadians: slot 1 of the triple (yaw) gives half-angle a, slot 0
    (pitch) half-angle b and slot 2 (roll) half-angle c; the result is the
    product yaw * pitch * roll of the rotations by a about Y, by b about X
    and by c about Z (FromEulerRadiansComposition). The zero triple gives
    the identity.
  */
  function FromEulerRadians(lib: MathLib, euler: V.Float3): (r: Quaternion)
    ensures TrigLaws(lib) && euler == V.Zero() ==> r == Identity()
  {
    var a := V.At(euler, 1) * 0.5;
    var b := V.At(euler, 0) * 0.5;
    var c := V.At(euler, 2) * 0.5;
    HalfAngleProduct(lib.cos(a), lib.sin(a), lib.cos(b), lib.sin(b), lib.cos(c), lib.sin(c))
  }

  /**
    The returned quaternion, given the cosines and sines of the yaw, pitch and
    roll half-angles. With two of the half-angles zero (cosine 1, sine 0) it
    keeps only the rotation about the third axis.
  */
  function HalfAngleProduct(cosA: real, sinA: real, cosB: real, sinB: real, cosC: real, sinC: real): (r: Quaternion)
    ensures cosB == 1.0 && sinB == 0.0 && cosC == 1.0 && sinC == 0.0 ==> r == Quaternion(cosA, 0.0, sinA, 0.0)
    ensures cosA == 1.0 && sinA == 0.0 && cosC == 1.0 && sinC == 0.0 ==> r == Quaternion(cosB, sinB, 0.0, 0.0)
    ensures cosA == 1.0 && sinA == 0.0 && cosB == 1.0 && sinB == 0.0 ==> r == Quaternion(cosC, 0.0, 0.0, sinC)
  {
    Quaternion(
      sinA * sinB * sinC + cosA * cosB * cosC,
      sinA * cosB * sinC + cosA * sinB * cosC,
      sinA * cosB * cosC - cosA * sinB * sinC,
      -sinA * sinB * cosC + cosA * cosB * sinC)
  }

  /**
    FromEulerDegrees: converts the triple to radians first. The result is
    unit, and the zero triple gives the identity.
  */
  function FromEulerDegrees(lib: MathLib, euler: V.Float3): (r: Quaternion)
    requires PiLaw(lib)
    ensures TrigLaws(lib) ==> IsUnit(r)
    ensures TrigLaws(lib) && euler == V.Zero() ==> r == Identity()
  {
    var radians := V.EulerRadians(lib, euler);
    assert TrigLaws(lib) ==> IsUnit(FromEulerRadians(lib, radians)) by {
      if TrigLaws(lib) {
        FromEulerRadiansIsUnit(lib, radians);
      }
    }
    assert euler == V.Zero() ==> radians == V.Zero();
    FromEulerRadians(lib, radians)
  }

  /** A triple with only slot 0 (pitch) set: (cos h, sin h, 0, 0) for the half-angle h. */
  lemma FromEulerRadiansPitchOnly(lib: MathLib, pitch: real)
    requires TrigLaws(lib)
    ensures FromEulerRadians(lib, V.Float3(pitch, 0.0, 0.0))
         == Quaternion(lib.cos(pitch * 0.5), lib.sin(pitch * 0.5), 0.0, 0.0)
  {
  }

  /** A triple with only slot 1 (yaw) set: (cos h, 0, sin h, 0) for the half-angle h. */
  lemma FromEulerRadiansYawOnly(lib: MathLib, yaw: real)
    requires TrigLaws(lib)
    ensures FromEulerRadians(lib, V.Float3(0.0, yaw, 0.0))
         == Quaternion(lib.cos(yaw * 0.5), 0.0, lib.sin(yaw * 0.5), 0.0)
  {
  }

  /** A triple with only slot 2 (roll) set: (cos h, 0, 0, sin h) for the half-angle h. */
  lemma FromEulerRadiansRollOnly(lib: MathLib, roll: real)
    requires TrigLaws(lib)
    ensures FromEulerRadians(lib, V.Float3(0.0, 0.0, roll))
         == Quaternion(lib.cos(roll * 0.5), 0.0, 0.0, lib.sin(roll * 0.5))
  {
  }

  /** The single-axis quaternions are unit. */
  lemma SingleAxisUnit(lib: MathLib, t: real)
    requires TrigLaws(lib)
    ensures IsUnit(FromEulerRadians(lib, V.Float3(t, 0.0, 0.0)))
    ensures IsUnit(FromEulerRadians(lib, V.Float3(0.0, t, 0.0)))
    ensures IsUnit(FromEulerRadians(lib, V.Float3(0.0, 0.0, t)))
  {
    FromEulerRadiansPitchOnly(lib, t);
    FromEulerRadiansYawOnly(lib, t);
    FromEulerRadiansRollOnly(lib, t);
    var h := t * 0.5;
    assert lib.sin(h) * lib.sin(h) + lib.cos(h) * lib.cos(h) == 1.0;
  }

  /** The quaternion of a full triple is yaw-only * pitch-only * roll-only, exactly. */
  lemma {:induction false} FromEulerRadiansComposition(lib: MathLib, pitch: real, yaw: real, roll: real)
    requires TrigLaws(lib)
    ensures FromEulerRadians(lib, V.Float3(pitch, yaw, roll))
         == Mul(Mul(FromEulerRadians(lib, V.Float3(0.0, yaw, 0.0)),
                    FromEulerRadians(lib, V.Float3(pitch, 0.0, 0.0))),
                FromEulerRadians(lib, V.Float3(0.0, 0.0, roll)))
  {
    FromEulerRadiansYawOnly(lib, yaw);
    FromEulerRadiansPitchOnly(lib, pitch);
    FromEulerRadiansRollOnly(lib, roll);
    HalfAngleProductComposition(
      lib.cos(yaw * 0.5), lib.sin(yaw * 0.5), lib.cos(pitch * 0.5), lib.sin(pitch * 0.5),
      lib.cos(roll * 0.5), lib.sin(roll * 0.5));
  }

  /** The closed form is the product (yaw * pitch) * roll of the three single-axis quaternions. */
  lemma HalfAngleProductComposition(ca: real, sa: real, cb: real, sb: real, cc: real, sc: real)
    ensures Mul(Mul(Quaternion(ca, 0.0, sa, 0.0), Quaternion(cb, sb, 0.0, 0.0)), Quaternion(cc, 0.0, 0.0, sc))
         == HalfAngleProduct(ca, sa, cb, sb, cc, sc)
  {
    var p := Mul(Quaternion(ca, 0.0, sa, 0.0), Quaternion(cb, sb, 0.0, 0.0));
    YawPitchProduct(ca, sa, cb, sb);
    RollProduct(p, cc, sc);
    HamiltonIdentities.EulerProduct(ca, sa, cb, sb, cc, sc, p.w, p.x, p.y, p.z);
  }

  lemma YawPitchProduct(ca: real, sa: real, cb: real, sb: real)
    ensures Mul(Quaternion(ca, 0.0, sa, 0.0), Quaternion(cb, sb, 0.0, 0.0))
         == Quaternion(ca * cb, ca * sb, sa * cb, -(sa * sb))
  {
  }

  lemma RollProduct(p: Quaternion, cc: real, sc: real)
    ensures Mul(p, Quaternion(cc, 0.0, 0.0, sc))
         == Quaternion(p.w * cc - p.z * sc, p.x * cc + p.y * sc, p.y * cc - p.x * sc, p.w * sc + p.z * cc)
  {
  }

  /** Every quaternion built from an Euler triple is unit. */
  lemma {:induction false} FromEulerRadiansIsUnit(lib: MathLib, euler: V.Float3)
    requires TrigLaws(lib)
    ensures IsUnit(FromEulerRadians(lib, euler))
  {
    var qy := FromEulerRadians(lib, V.Float3(0.0, euler.y, 0.0));
    var qp := FromEulerRadians(lib, V.Float3(euler.x, 0.0, 0.0));
    var qr := FromEulerRadians(lib, V.Float3(0.0, 0.0, euler.z));
    FromEulerRadiansComposition(lib, euler.x, euler.y, euler.z);
    assert euler == V.Float3(euler.x, euler.y, euler.z);
    SingleAxisUnit(lib, euler.x);
    SingleAxisUnit(lib, euler.y);
    SingleAxisUnit(lib, euler.z);
    UnitMul(qy, qp);
    UnitMul(Mul(qy, qp), qr);
  }

  /** The nine entries of the rotation matrix of a quaternion, as the conversion back computes them. */
  datatype Matrix3 = Matrix3(
    xx: real, xy: real, xz: real,
    yx: real, yy: real, yz: real,
    zx: real, zy: real, zz: real)

  /**
    The rotation matrix of q, scaled by 2 / |q|^2 so that q need not be unit.
    Its trace is 4 w^2 / |q|^2 - 1 (that is, 1 + 2 cos of the rotation angle),
    and no diagonal entry exceeds 1.
  */
  function RotationMatrix(q: Quaternion): (m: Matrix3)
    requires LengthSquared(q) != 0.0
    ensures (m.xx + m.yy + m.zz + 1.0) * LengthSquared(q) == 4.0 * (q.w * q.w)
    ensures m.xx <= 1.0 && m.yy <= 1.0 && m.zz <= 1.0
  {
    var s := 2.0 / LengthSquared(q);
    var xs, ys, zs := q.x * s, q.y * s, q.z * s;
    var wx, wy, wz := q.w * xs, q.w * ys, q.w * zs;
    var xx, xy, xz := q.x * xs, q.x * ys, q.x * zs;
    var yy, yz, zz := q.y * ys, q.y * zs, q.z * zs;
    V.MulCancelsDiv(2.0, LengthSquared(q), s);
    LengthSquaredFields(q);
    HamiltonIdentities.MatrixTrace(q.w, q.x, q.y, q.z, LengthSquared(q), s, xx, yy, zz);
    HamiltonIdentities.ScaledSquareNonNegative(q.x, s, xx);
    HamiltonIdentities.ScaledSquareNonNegative(q.y, s, yy);
    HamiltonIdentities.ScaledSquareNonNegative(q.z, s, zz);
    Matrix3(
      1.0 - (yy + zz), xy - wz, xz + wy,
      xy + wz, 1.0 - (xx + zz), yz - wx,
      xz - wy, yz + wx, 1.0 - (xx + yy))
  }

  /** A quaternion with no vector part, the identity among them, has the identity matrix. */
  lemma RotationMatrixOfScalar(q: Quaternion)
    requires q.w != 0.0 && q.x == 0.0 && q.y == 0.0 && q.z == 0.0
    ensures LengthSquared(q) != 0.0
    ensures RotationMatrix(q) == Matrix3(1.0, 0.0, 0.0, 0.0, 1.0, 0.0, 0.0, 0.0, 1.0)
  {
    var s := 2.0 / LengthSquared(q);
    assert q.x * s == 0.0 && q.y * s == 0.0 && q.z * s == 0.0;
  }

  /**
    ToEulerRadians: reads the angles off the rotation matrix. Near the two
    gimbal-lock poles (entry yz within epsilon of 1 or -1) pitch is pinned to
    -pi/2 or pi/2 and roll is 0; when the matrix is a pure rotation about X
    only pitch is non-zero; otherwise asin and atan2 give the three angles.
  */
  function ToEulerRadians(lib: MathLib, q: Quaternion): (r: V.Float3)
    requires LengthSquared(q) != 0.0
    ensures RotationMatrix(q).yz >= MathUtility.FloatComparisonOneMinusEpsilon
            ==> r.x == -(lib.pi / 2.0) && r.z == 0.0
    ensures RotationMatrix(q).yz <= -MathUtility.FloatComparisonOneMinusEpsilon
            ==> r.x == lib.pi / 2.0 && r.z == 0.0
  {
    var m := RotationMatrix(q);
    if m.yz >= MathUtility.FloatComparisonOneMinusEpsilon then
      V.Float3(-(lib.pi / 2.0), -lib.atan2(m.xy, m.xx), 0.0)
    else if m.yz <= -MathUtility.FloatComparisonOneMinusEpsilon then
      V.Float3(lib.pi / 2.0, lib.atan2(m.xy, m.xx), 0.0)
    else if m.yx == 0.0 && m.xy == 0.0 && m.xz == 0.0 && m.zx == 0.0 && m.xx == 1.0 then
      V.Float3(lib.atan2(-m.yz, m.yy), 0.0, 0.0)
    else
      V.Float3(lib.asin(-m.yz), lib.atan2(m.xz, m.zz), lib.atan2(m.yx, m.yy))
  }

  /** ToEulerDegrees: the radian triple converted to degrees. */
  function ToEulerDegrees(lib: MathLib, q: Quaternion): (r: V.Float3)
    requires PiLaw(lib)
    requires LengthSquared(q) != 0.0
    ensures V.EulerRadians(lib, r) == ToEulerRadians(lib, q)
  {
    V.EulerUnitsRoundTrip(lib, ToEulerRadians(lib, q));
    V.EulerDegrees(lib, ToEulerRadians(lib, q))
  }

  /** A quaternion with no vector part, the identity among them, converts back to the zero triple. */
  lemma ToEulerRadiansOfScalar(lib: MathLib, q: Quaternion)
    requires Atan2Law(lib)
    requires q.w != 0.0 && q.x == 0.0 && q.y == 0.0 && q.z == 0.0
    ensures LengthSquared(q) != 0.0
    ensures ToEulerRadians(lib, q) == V.Zero()
  {
    RotationMatrixOfScalar(q);
    UnrotatedMatrixAngles(lib, q);
  }

  /** A quaternion whose matrix is the identity converts to (atan2(0, 1), 0, 0). */
  lemma UnrotatedMatrixAngles(lib: MathLib, q: Quaternion)
    requires LengthSquared(q) != 0.0
    requires RotationMatrix(q) == Matrix3(1.0, 0.0, 0.0, 0.0, 1.0, 0.0, 0.0, 0.0, 1.0)
    ensures ToEulerRadians(lib, q) == V.Float3(lib.atan2(0.0, 1.0), 0.0, 0.0)
  {
    var m := RotationMatrix(q);
    assert -m.yz == 0.0;
  }

  /** The identity quaternion converts back to the zero triple in degrees too. */
  lemma ToEulerDegreesIdentity(lib: MathLib)
    requires Atan2Law(lib) && PiLaw(lib)
    ensures ToEulerDegrees(lib, Identity()) == V.Zero()
  {
    ToEulerRadiansOfScalar(lib, Identity());
    V.EulerUnitsRoundTrip(lib, V.Zero());
  }

  // ---------------------------------------------------------------- in-place operators

  /**
    A Quaternion object updated in place by the compound operators. The
    product computes the new x, y and z into temporaries and overwrites w
    last among the reads, so the right-hand side may be this object itself.
  */
  class QuaternionVar {
    var qw: real
    var qx: real
    var qy: real
    var qz: real

    function Value(): Quaternion
      reads this
    {
      Quaternion(qw, qx, qy, qz)
    }

    constructor (q: Quaternion)
      ensures Value() == q
    {
      qw, qx, qy, qz := q.w, q.x, q.y, q.z;
    }

    /** operator*=: this becomes this * rhs, the Hamilton product of the values before the call. */
    method MulAssign(rhs: QuaternionVar)
      modifies this
      ensures Value() == Mul(old(Value()), old(rhs.Value()))
    {
      ghost var product := Mul(Value(), rhs.Value());
      var a := qw * rhs.qx + qx * rhs.qw + qy * rhs.qz - qz * rhs.qy;
      var b := qw * rhs.qy + qy * rhs.qw + qz * rhs.qx - qx * rhs.qz;
      var c := qw * rhs.qz + qz * rhs.qw + qx * rhs.qy - qy * rhs.qx;
      assert a == product.x && b == product.y && c == product.z;
      qw := qw * rhs.qw - qx * rhs.qx - qy * rhs.qy - qz * rhs.qz;
      assert qw == product.w;
      qx := a;
      qy := b;
      qz := c;
    }

    /** operator*= with a scalar: every field scaled in place, no reordering. */
    method ScaleAssign(s: real)
      modifies this
      ensures Value() == Scale(old(Value()), s)
    {
      qw := qw * s;
      qx := qx * s;
      qy := qy * s;
      qz := qz * s;
    }

    /** operator/= with a scalar: every field divided in place, no reordering. */
    method DivAssign(s: real)
      requires s != 0.0
      modifies this
      ensures Value() == DivideBy(old(Value()), s)
    {
      qw := qw / s;
      qx := qx / s;
      qy := qy / s;
      qz := qz / s;
    }

    /** Writing through the non-const operator[]: index 0 to 3 or, for any other index, slot 0 (w). */
    method SetAt(axis: int, t: real)
      modifies this
      ensures At(Value(), axis) == t
      ensures forall i | 0 <= i < 4 && i != Slot(axis) :: At(Value(), i) == At(old(Value()), i)
    {
      match axis
      case 1 => qx := t;
      case 2 => qy := t;
      case 3 => qz := t;
      case _ => qw := t;
    }
  }

  /**
    The by-value operator*: copies the left operand into a temporary, applies
    *= to it and returns it; neither operand changes.
  */
  method Product(lhs: Quaternion, rhs: Quaternion) returns (r: Quaternion)
    ensures r == Mul(lhs, rhs)
  {
    var temp := new QuaternionVar(lhs);
    var other := new QuaternionVar(rhs);
    temp.MulAssign(other);
    r := temp.Value();
  }

  /** Squaring in place (rhs is the object itself) still yields the product of the old values. */
  method SquareInPlace(q: QuaternionVar)
    modifies q
    ensures q.Value() == Mul(old(q.Value()), old(q.Value()))
  {
    q.MulAssign(q);
  }
}
