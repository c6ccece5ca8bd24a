# m1-mathematics rotation core in Dafny

This project models the rotation core of the Mach1 m1-mathematics library:

- the approximate-equality rule of `MathUtility`;
- the `Float3` triple, used both as a vector and as an Euler triple with pitch, yaw and roll in slots 0, 1 and 2;
- the `Quaternion` value, with its Hamilton product, norm, inverse and Euler conversions;
- the `Orientation` object, which holds a local and a parent quaternion and reports their product `parent * local` as the global rotation.

How the model is built:

- Floating-point numbers are exact `real`s.
- The `<cmath>` functions and constants the code uses are sin, cos, sqrt, atan2, asin, `M_PI` and `M_PI_2`. They are not part of the model. They are passed in as a `CMath.MathLib` value. Each lemma that relies on one of their properties states that property as a precondition:
  - `TrigLaws`: sin 0 = 0, cos 0 = 1 and sin² + cos² = 1.
  - `SqrtLaw`: sqrt is the non-negative square root.
  - `PiLaw`: pi > 0.
  - `Atan2Law`: atan2(0, 1) = 0.
- `Float3` and `Quaternion` are datatypes, and their const members and by-value operators are functions.
- The compound operators update an object in place, so they are methods of the small classes `Float3Var` and `QuaternionVar`. Their right-hand side may be the object itself.
- `Orientation` is a class with fields `local` and `parent`. Its mutators are methods whose contracts give the new value of both fields.
- Module-level methods replay the orientation tests' call sequences: reset then apply two or three single-axis triples, set the global rotation, and recenter. Each proves what the global rotation quaternion is at the end.
- `HamiltonIdentities` holds the polynomial identities behind associativity and the norm of a product. The proofs use them; they are not part of the library.

## Model

| member | source | states |
|---|---|---|
| MathUtility.Tolerance | include/m1_mathematics/MathUtility.h:20-23 | the tolerance is epsilon·\|a\| raised to at least epsilon, and is one of the two |
| MathUtility.IsApproximatelyEqual | include/m1_mathematics/MathUtility.h:14-26 | a and b are approximately equal exactly when \|a − b\| is below the tolerance of a; the a == b shortcut is covered by this |
| MathUtility.OneMinusEpsilonValue | include/m1_mathematics/MathUtility.h:11-12 | the one-minus-epsilon constant plus epsilon is 1, and it lies strictly between 0 and 1 |
| MathUtility.ApproxReflexive | include/m1_mathematics/MathUtility.h:16-18 | every value is approximately equal to itself |
| MathUtility.ApproxWithinEpsilon | include/m1_mathematics/MathUtility.h:20-25 | a distance below epsilon is accepted whatever the magnitude |
| MathUtility.ApproxRelativeForLargeValues | include/m1_mathematics/MathUtility.h:20-25 | for \|a\| ≥ 1 the test is relative: accepted iff \|a − b\| < epsilon·\|a\| |
| MathUtility.ApproxAbsoluteForSmallValues | include/m1_mathematics/MathUtility.h:20-25 | for \|a\| ≤ 1 the test is absolute: accepted iff \|a − b\| < epsilon |
| MathUtility.ApproxNotSymmetric | include/m1_mathematics/MathUtility.h:20-25 | the tolerance depends on the first argument only, so swapping the arguments can change the answer |
| Vectors.Zero | src/Float3.cpp:9 | the default triple reads 0 at every index and is neutral for + |
| Vectors.Splat | src/Float3.cpp:13 | the one-value constructor puts that value in every slot |
| Vectors.At | src/Float3.cpp:155-166 | indexing with anything other than 0, 1 or 2 reads slot 0 (x) |
| Vectors.IndexingDeterminesVector | src/Float3.cpp:155-166 | two triples are equal iff they agree at indices 0, 1 and 2 |
| Vectors.GetPitch | src/Float3.cpp:77-79 | pitch is slot 0 |
| Vectors.GetYaw | src/Float3.cpp:73-75 | yaw is slot 1 |
| Vectors.GetRoll | src/Float3.cpp:81-83 | roll is slot 2 |
| Vectors.Equals | src/Float3.cpp:181-183 | == holds iff the triples are equal |
| Vectors.NotEquals | src/Float3.cpp:185-187 | != is the exact negation of == |
| Vectors.IsApproximatelyEqual | src/Float3.cpp:61-65 | the scalar rule holds at each of the three slots; equal triples are approximately equal |
| Vectors.Add | src/Float3.cpp:131-133 | by-value +: every slot of the result is the sum of that slot of the operands |
| Vectors.Sub | src/Float3.cpp:135-137 | by-value −: every slot is the difference of the operands' slots, and adding the right operand back gives the left one |
| Vectors.Mul | src/Float3.cpp:139-141 | by-value * of two triples: every slot is the product of the operands' slots |
| Vectors.Div | src/Float3.cpp:143-145 | by-value / of two triples: every slot times the divisor's slot gives the dividend's slot, so * by the divisor undoes it |
| Vectors.Scale | src/Float3.cpp:147-149 | * s: every slot is multiplied by s, and s = 1 changes nothing |
| Vectors.DivScalar | src/Float3.cpp:151-153 | / s: every slot times s gives the input slot, so * s undoes it |
| Vectors.AddScalar | src/Float3.cpp:189-191 | + s: s is added to every slot |
| Vectors.SubScalar | src/Float3.cpp:193-195 | − s: s is subtracted from every slot, and + s undoes it |
| Vectors.AddSubInverse | src/Float3.cpp:131-137 | by-value + and − undo each other |
| Vectors.MulDivInverse | src/Float3.cpp:139-145 | component-wise * and / undo each other when no divisor slot is zero |
| Vectors.ScaleDivScalarInverse | src/Float3.cpp:147-153 | * scalar and / scalar undo each other for a non-zero scalar |
| Vectors.ScalarOpsAreSplatOps | src/Float3.cpp:147-153 | * s and / s are the component-wise operators with the triple (s, s, s) |
| Vectors.ScalarShift | src/Float3.cpp:189-195 | + s and − s are + and − with (s, s, s), and − s undoes + s |
| Vectors.LengthSquared | src/Float3.cpp:20 | the sum of squares is non-negative, and zero only for the zero triple |
| Vectors.Length | src/Float3.cpp:15-17 | the length is non-negative and its square is the sum of squares |
| Vectors.Normalized | src/Float3.cpp:19-28 | the zero triple is returned unchanged; any other triple becomes length 1, and scaling it by the original length gives the input back |
| Vectors.Map | src/Float3.cpp:31-40 | an empty source range gives the zero triple; otherwise each component keeps its proportion within the two ranges |
| Vectors.MapEndpoints | src/Float3.cpp:31-40 | fromMin maps to toMin and fromMax maps to toMax |
| Vectors.MapRoundTrip | src/Float3.cpp:31-40 | mapping to another non-empty range and back returns the input |
| Vectors.MapUnique | src/Float3.cpp:31-40 | Map's result is the only triple that keeps the proportion, so the proportion law fully specifies it |
| Vectors.MapDegreesOntoSymmetricRadians | src/Float3.cpp:31-40 | mapping [−180, 180] onto [−pi, pi] is the degree-to-radian conversion |
| Vectors.MapDegreesOntoPositiveRadians | src/Float3.cpp:31-40 | mapping [−180, 180] onto [0, 2pi] converts the angle plus 180 degrees |
| Vectors.MapAngleExamples | tests/Float3Tests.cpp:87 | zero stays zero when mapped from [−1, 1] to [−pi, pi] |
| Vectors.MapShiftedAngleExample | tests/Float3Tests.cpp:103-106 | zero maps to pi in every slot when mapped from [−pi, pi] to [0, 2pi] |
| Vectors.Clamp | src/Float3.cpp:45-47 | a value below the lower bound gives the lower bound; otherwise a value above the upper bound gives the upper bound; a value within the bounds is unchanged; with ordered bounds the result lies within them |
| Vectors.Clamped | src/Float3.cpp:43-49 | every slot is the scalar clamp of that slot: below its lower bound it becomes the lower bound, otherwise above its upper bound it becomes the upper bound, else it is unchanged; with ordered bounds it lies within them |
| Vectors.ClampedIdempotent | src/Float3.cpp:43-49 | with ordered bounds, clamping twice equals clamping once |
| Vectors.ClampedExamples | tests/Float3Tests.cpp:53-59 | the clamps the tests check, including bounds in the wrong order |
| Vectors.EulerDegrees | src/Float3.cpp:51-54 | every component: degrees·pi = radians·180 |
| Vectors.EulerRadians | src/Float3.cpp:56-59 | every component: radians·180 = degrees·pi |
| Vectors.EulerUnitsRoundTrip | src/Float3.cpp:51-59 | the two unit conversions undo each other |
| Vectors.Float3Var.constructor | src/Float3.cpp:11 | the object holds the given triple |
| Vectors.Float3Var.AddAssign | src/Float3.cpp:89-94 | += leaves the by-value sum of the old values and returns the object itself |
| Vectors.Float3Var.SubAssign | src/Float3.cpp:96-101 | −= leaves the by-value difference and returns the object itself |
| Vectors.Float3Var.MulAssign | src/Float3.cpp:103-108 | *= leaves the component-wise product and returns the object itself |
| Vectors.Float3Var.DivAssign | src/Float3.cpp:110-115 | /= leaves the component-wise quotient and returns the object itself |
| Vectors.Float3Var.ScaleAssign | src/Float3.cpp:117-122 | *= s leaves the scaled triple and returns the object itself |
| Vectors.Float3Var.DivScalarAssign | src/Float3.cpp:124-129 | /= s leaves the divided triple and returns the object itself |
| Vectors.Float3Var.SetAt | src/Float3.cpp:168-179 | writing through [] sets the indexed slot, or slot 0 for an out-of-range index, and no other slot |
| Quaternions.At | src/Quaternion.cpp:135-148 | indexing outside 0 to 3 reads slot 0 (w) |
| Quaternions.IndexingDeterminesQuaternion | src/Quaternion.cpp:135-148 | two quaternions are equal iff they agree at indices 0 to 3 |
| Quaternions.Equals | src/Quaternion.cpp:165-167 | == holds iff the quaternions are equal |
| Quaternions.NotEquals | src/Quaternion.cpp:169-171 | != is the exact negation of == |
| Quaternions.IsApproximatelyEqual | src/Quaternion.cpp:98-103 | the scalar rule holds at each of the four slots; equal quaternions are approximately equal |
| Quaternions.Identity | src/Quaternion.cpp:12 | the default quaternion (1, 0, 0, 0) is neutral on both sides of the Hamilton product |
| Quaternions.Add | src/Quaternion.cpp:173-175 | every slot of the sum is the sum of the operands' slots |
| Quaternions.Sub | src/Quaternion.cpp:177-179 | every slot of the difference is the difference of the operands' slots, and adding the right operand back gives the left one |
| Quaternions.AddSubInverse | src/Quaternion.cpp:173-179 | + and − undo each other |
| Quaternions.Mul | src/Quaternion.cpp:181-195 | the Hamilton product; a factor with no vector part, on either side, acts as multiplication of the other factor by its w |
| Quaternions.MulAssociative | src/Quaternion.cpp:181-189 | the Hamilton product is associative |
| Quaternions.MulNotCommutative | src/Quaternion.cpp:181-189 | swapping the operands keeps w and changes the vector part by twice the cross product of the vector parts, so two quaternions commute exactly when their vector parts are parallel |
| Quaternions.BasisProductsDiffer | src/Quaternion.cpp:181-189 | i·j differs from j·i |
| Quaternions.LengthSquared | src/Quaternion.cpp:117-119 | the dot product with itself is non-negative, and zero only for the zero quaternion |
| Quaternions.Length | src/Quaternion.cpp:121-123 | the length is non-negative and its square is the squared length |
| Quaternions.DotProduct | src/Quaternion.cpp:113-115 | never negative for a quaternion with itself |
| Quaternions.DotProductSymmetric | src/Quaternion.cpp:113-115 | the dot product is symmetric |
| Quaternions.Inversed | src/Quaternion.cpp:109-111 | the conjugate: w is kept, x, y and z are negated, so q plus its conjugate is (2w, 0, 0, 0) |
| Quaternions.MulInversed | src/Quaternion.cpp:109-111 | q times its conjugate, on either side, is (\|q\|², 0, 0, 0), which is the identity for a unit q |
| Quaternions.InversedIdentity | src/Quaternion.cpp:109-111 | the identity is its own inverse |
| Quaternions.InversedInvolution | src/Quaternion.cpp:109-111 | inverting twice returns the input |
| Quaternions.InversedLengthSquared | src/Quaternion.cpp:109-111 | inversion keeps the norm |
| Quaternions.InversedMul | src/Quaternion.cpp:109-111 | the inverse of a product is the product of the inverses in reverse order |
| Quaternions.LengthSquaredMul | src/Quaternion.cpp:181-189 | the squared length of a product is the product of the squared lengths |
| Quaternions.MulNonZero | src/Quaternion.cpp:181-189 | the product of two non-zero quaternions is non-zero |
| Quaternions.UnitMul | src/Quaternion.cpp:181-189 | products of unit quaternions are unit |
| Quaternions.Scale | src/Quaternion.cpp:197-202 | in-place *= s: every slot is multiplied by s, and s = 0 gives the zero quaternion |
| Quaternions.DivideBy | src/Quaternion.cpp:204-209 | in-place /= s: every slot times s gives the input slot, so scaling by s undoes it |
| Quaternions.ScaleByOne | src/Quaternion.cpp:197-202 | scaling in place by 1 changes nothing |
| Quaternions.ScaleDivideByInverse | src/Quaternion.cpp:197-209 | in-place *= s and /= s undo each other for a non-zero s |
| Quaternions.LengthSquaredScale | src/Quaternion.cpp:197-202 | scaling by s multiplies the squared length by s² |
| Quaternions.TimesScalar | src/Quaternion.cpp:211-213 | the by-value * s as written: the scaled quaternion with its components moved one slot down (x, y, z, w into w, x, y, z) |
| Quaternions.OverScalar | src/Quaternion.cpp:215-217 | the by-value / s as written: the divided quaternion, moved one slot down in the same way |
| Quaternions.RotateSlots | src/Quaternion.cpp:211-217 | the slot move keeps the norm and reads slot i from slot i + 1 mod 4 |
| Quaternions.TimesScalarReordersComponents | src/Quaternion.cpp:211-217 | identity·1 as written is (0, 0, 0, 1), not the identity; the same holds for identity/1 |
| Quaternions.CorrectedTimesScalar | src/Quaternion.cpp:197-202 | the intended by-value * s: every slot is scaled in place, and it agrees with *= s |
| Quaternions.CorrectedOverScalar | src/Quaternion.cpp:204-209 | the intended by-value / s: every slot is divided, it agrees with /= s and is undone by * s |
| Quaternions.Normalized | src/Quaternion.cpp:105-107 | as written: a unit quaternion, but the intended normalization moved one slot down |
| Quaternions.NormalizedIdentityIsRotated | src/Quaternion.cpp:105-107 | normalizing the identity as written gives (0, 0, 0, 1) |
| Quaternions.CorrectedNormalized | src/Quaternion.cpp:105-107 | the intended normalization: unit, scales back to the input, and leaves a unit input unchanged |
| Quaternions.FromEulerDegrees | src/Quaternion.cpp:41-43 | the degree triple converted to radians first; the result is unit, and the zero triple gives the identity |
| Quaternions.FromEulerRadians | src/Quaternion.cpp:16-39 | the half-angles of slots 1, 0 and 2 go into the closed form; the zero triple gives the identity |
| Quaternions.HalfAngleProduct | src/Quaternion.cpp:24-38 | the closed form from the half-angle cosines and sines; with two half-angles zero it keeps only the rotation about the third axis |
| Quaternions.FromEulerRadiansPitchOnly | src/Quaternion.cpp:16-39 | a triple with only slot 0 set gives (cos h, sin h, 0, 0), with h half of the angle |
| Quaternions.FromEulerRadiansYawOnly | src/Quaternion.cpp:16-39 | a triple with only slot 1 set gives (cos h, 0, sin h, 0) |
| Quaternions.FromEulerRadiansRollOnly | src/Quaternion.cpp:16-39 | a triple with only slot 2 set gives (cos h, 0, 0, sin h) |
| Quaternions.SingleAxisUnit | src/Quaternion.cpp:16-39 | the three single-axis quaternions are unit |
| Quaternions.FromEulerRadiansComposition | src/Quaternion.cpp:16-39 | the quaternion of (pitch, yaw, roll) is exactly yaw-only · pitch-only · roll-only, the YXZ order |
| Quaternions.HalfAngleProductComposition | src/Quaternion.cpp:24-38 | the closed form is exactly the product (yaw · pitch) · roll of the three single-axis quaternions |
| Quaternions.FromEulerRadiansIsUnit | src/Quaternion.cpp:16-39 | every quaternion built from an Euler triple is unit |
| Quaternions.RotationMatrix | src/Quaternion.cpp:49-77 | the rotation matrix scaled by 2 / \|q\|²: its trace plus 1, times \|q\|², is 4w², and no diagonal entry exceeds 1 |
| Quaternions.RotationMatrixOfScalar | src/Quaternion.cpp:49-77 | a quaternion with a non-zero w and no vector part has the identity matrix |
| Quaternions.ToEulerRadians | src/Quaternion.cpp:45-92 | near the poles (matrix entry yz within epsilon of ±1), pitch is pinned to ∓pi/2 and roll to 0 |
| Quaternions.UnrotatedMatrixAngles | src/Quaternion.cpp:79-91 | an identity matrix takes the pure-X-rotation branch and gives (atan2(0, 1), 0, 0) |
| Quaternions.ToEulerRadiansOfScalar | src/Quaternion.cpp:45-92 | the identity, and any other quaternion with no vector part, converts back to the zero triple |
| Quaternions.ToEulerDegrees | src/Quaternion.cpp:94-96 | converting the result back to radians gives ToEulerRadians |
| Quaternions.ToEulerDegreesIdentity | src/Quaternion.cpp:94-96 | the identity converts to the zero triple in degrees |
| Quaternions.QuaternionVar.constructor | src/Quaternion.cpp:14 | the object holds the given components |
| Quaternions.QuaternionVar.MulAssign | src/Quaternion.cpp:181-189 | *= leaves the Hamilton product of the old values, even when the right-hand side is the object itself |
| Quaternions.QuaternionVar.ScaleAssign | src/Quaternion.cpp:197-202 | *= s scales every slot in place, with no reordering |
| Quaternions.QuaternionVar.DivAssign | src/Quaternion.cpp:204-209 | /= s divides every slot in place, with no reordering |
| Quaternions.QuaternionVar.SetAt | src/Quaternion.cpp:150-163 | writing through [] sets the indexed slot, or slot 0 for an out-of-range index, and no other slot |
| Quaternions.Product | src/Quaternion.cpp:191-195 | by-value * through a temporary and *= gives the Hamilton product |
| Quaternions.SquareInPlace | src/Quaternion.cpp:181-189 | q *= q squares the old value |
| Orientations.Orientation.constructor | src/Orientation.cpp:5-6 | both parts start as the identity |
| Orientations.Orientation.GetGlobalRotationAsQuaternion | src/Orientation.cpp:8-10 | the squared length is the product of the parts' squared lengths; an identity part leaves the other one |
| Orientations.Orientation.GetGlobalRotationAsEulerRadians | src/Orientation.cpp:16-18 | defined whenever both parts are non-zero, so the global rotation is non-zero; an identity global rotation reads as the zero triple |
| Orientations.Orientation.GetGlobalRotationAsEulerDegrees | src/Orientation.cpp:12-14 | converting back to radians gives the radian getter's result |
| Orientations.Orientation.ApplyRotation | src/Orientation.cpp:20-22 | local becomes local·q, parent is kept, and the global rotation is right-multiplied by q |
| Orientations.Orientation.ApplyRotationRadians | src/Orientation.cpp:31-33 | local is right-multiplied by the quaternion of the radian triple |
| Orientations.Orientation.ApplyRotationDegrees | src/Orientation.cpp:24-26 | local is right-multiplied by the quaternion of the degree triple |
| Orientations.Orientation.ApplyRotationYawAxis | src/Orientation.cpp:34 | as written: the angle goes into slot 0, so the applied quaternion is the pitch-only (cos h, sin h, 0, 0) |
| Orientations.Orientation.ApplyRotationPitchAxis | src/Orientation.cpp:35 | as written: the angle goes into slot 1, so the applied quaternion is the yaw-only (cos h, 0, sin h, 0) |
| Orientations.Orientation.ApplyRotationRollAxis | src/Orientation.cpp:36 | the angle goes into the roll slot: (cos h, 0, 0, sin h) |
| Orientations.Orientation.CorrectedApplyRotationYawAxis | src/Orientation.cpp:34 | the intended yaw helper: the angle goes into the yaw slot (slot 1) |
| Orientations.Orientation.CorrectedApplyRotationPitchAxis | src/Orientation.cpp:35 | the intended pitch helper: the angle goes into the pitch slot (slot 0) |
| Orientations.Orientation.ApplyRotationDegreesYawAxis | src/Orientation.cpp:27 | as written: the degree angle goes into slot 0 (pitch) |
| Orientations.Orientation.ApplyRotationDegreesPitchAxis | src/Orientation.cpp:28 | as written: the degree angle goes into slot 1 (yaw) |
| Orientations.Orientation.ApplyRotationDegreesRollAxis | src/Orientation.cpp:29 | the degree angle goes into slot 2 (roll) |
| Orientations.Orientation.CorrectedApplyRotationDegreesYawAxis | src/Orientation.cpp:27 | the intended degree yaw helper: slot 1 |
| Orientations.Orientation.CorrectedApplyRotationDegreesPitchAxis | src/Orientation.cpp:28 | the intended degree pitch helper: slot 0 |
| Orientations.Orientation.Recenter | src/Orientation.cpp:38-40 | parent becomes the conjugate of local, so the global rotation is (\|local\|², 0, 0, 0): the identity for a unit local part |
| Orientations.Orientation.Reset | src/Orientation.cpp:42-45 | both parts become the identity |
| Orientations.Orientation.SetRotation | src/Orientation.cpp:47-49 | local is replaced and parent is kept |
| Orientations.Orientation.SetRotationRadians | src/Orientation.cpp:51-53 | local becomes the quaternion of the radian triple and parent is kept |
| Orientations.Orientation.SetGlobalRotation | src/Orientation.cpp:60-63 | afterwards the global rotation is exactly q |
| Orientations.Orientation.SetGlobalRotationRadians | src/Orientation.cpp:55-58 | afterwards the global rotation is exactly the quaternion of the radian triple |
| Orientations.NewOrientationIsUnrotated | tests/OrientationTests.cpp:6-11 | a new orientation reports the identity |
| Orientations.ResetIsUnrotated | tests/OrientationTests.cpp:13-28 | after Reset, whatever came before, the global rotation is the identity |
| Orientations.ApplyYawPitchRollAfterReset | tests/OrientationTests.cpp:108-112 | reset, then applying the yaw-only, pitch-only and roll-only triples, gives the quaternion of the full triple |
| Orientations.ApplyYawPitchAfterReset | tests/OrientationTests.cpp:90-93 | reset, then applying the yaw-only and the pitch-only triples, gives the quaternion of (pitch, yaw, 0) |
| Orientations.ApplyYawRollAfterReset | tests/OrientationTests.cpp:96-99 | reset, then applying the yaw-only and the roll-only triples, gives the quaternion of (0, yaw, roll) |
| Orientations.ApplyPitchRollAfterReset | tests/OrientationTests.cpp:102-105 | reset, then applying the pitch-only and the roll-only triples, gives the quaternion of (pitch, 0, roll) |
| Orientations.ApplyAxisHelpersAfterReset | src/Orientation.cpp:34-36 | reset, then the yaw, pitch and roll sequence through the corrected yaw and pitch helpers and the roll helper, gives the quaternion of the full triple |
| Orientations.SetGlobalRotationBothWays | tests/OrientationTests.cpp:30-50 | setting the global rotation from the degree quaternion, or from the radian triple, reads back that quaternion |
| Orientations.RecenterAfterRotation | tests/OrientationTests.cpp:118-127 | applying a degree rotation and then recentering reads back the identity |
| Orientations.ClearLocalAfterRecenter | tests/OrientationTests.cpp:125-129 | after a recenter, setting local from the zero triple leaves the inverse of the applied rotation |
| Orientations.AxisHelpersSwapYawAndPitch | src/Orientation.cpp:34-35 | for an angle whose half has a non-zero sine, the slot-0 and slot-1 single-axis quaternions differ, so the swapped helpers rotate about the wrong axis |
| Orientations.DegreeAxisHelpersSwapYawAndPitch | src/Orientation.cpp:27-28 | the same difference for the degree helpers |

## Left out

- Floating point: every value is an exact real. Rounding, overflow, infinities and NaN are not modelled. The epsilon constants are the decimal values written in the source, not their nearest 32-bit floats.
- Division by zero produces infinities or NaN in the library. In the model it is a precondition: a non-zero divisor for `Vectors.Div`, `Vectors.DivScalar`, `Vectors.Float3Var.DivAssign`, `Vectors.Float3Var.DivScalarAssign`, `Quaternions.DivideBy`, `Quaternions.OverScalar`, `Quaternions.CorrectedOverScalar` and `Quaternions.QuaternionVar.DivAssign`, and a non-zero squared length for `Quaternions.RotationMatrix`, `Quaternions.ToEulerRadians`, `Quaternions.ToEulerDegrees`, `Quaternions.Normalized` and `Quaternions.CorrectedNormalized`. The Euler getters of `Orientation` require both parts to be non-zero, which over the reals is the same as a non-zero global rotation (`Quaternions.MulNonZero`). `Vectors.Normalized` and `Vectors.Map` model the library's own zero guards in full.
- sin, cos, sqrt, atan2, asin and `M_PI` are parameters, constrained only by the laws listed above. No numeric value of theirs is modelled.
- Quaternions.ToEulerRadians: the constant `M_PI_2` used for the gimbal-lock pitch is written as `pi / 2` of the same `pi` parameter.
- Quaternions.ToEulerRadians: states only the gimbal-lock branches and the identity case, because its other branches depend on asin and atan2 values outside the laws above. So the numeric round trip Euler → quaternion → Euler that the tests check approximately is not proved.
- Orientations.Orientation.GetGlobalRotationAsEulerRadians: states only that the identity reads as the zero triple. The test scenarios are proved on the quaternion reading, and the Euler readings of those scenarios follow only through this getter's contract.
- `ToString` of `Float3` and `Quaternion` (string formatting through a stream) is not modelled.
- Vectors.Clamp: `std::clamp` has undefined behaviour when the lower bound exceeds the upper bound; the model gives the value its usual implementation returns there (the lower bound for a value below it, else the upper bound).
- `MathUtility::IsApproximatelyEqual` calls unqualified `abs`. Which overload that resolves to depends on the standard library headers, and the model takes the floating-point absolute value.
- The header declares getters for the quaternion's w, x, y and z, but no definition of them is part of this model.
- `Orientation::ApplyRotation` updates `m_local` with `*=` in place. The model runs the same `QuaternionVar.MulAssign` on a temporary object and stores its value back into the `local` field.
- Concurrency and the test harness are not modelled.

## Findings

| source | as written | input that shows it | evidently intended | confidence | as-written member | corrected member |
|---|---|---|---|---|---|---|
| src/Quaternion.cpp:211-217 | by-value `*` and `/` with a scalar build `{x·s, y·s, z·s, w·s}`, which moves every component one slot down | identity · 1 gives (0, 0, 0, 1) | the same result as the in-place `*=` and `/=`: (w·s, x·s, y·s, z·s) | high (not executed) | Quaternions.TimesScalar | Quaternions.CorrectedTimesScalar |
| src/Quaternion.cpp:105-107 | `Normalized` divides through the rotating by-value `/` | normalizing the identity gives (0, 0, 0, 1) | the unit quaternion q / \|q\|, which leaves a unit input unchanged | high (not executed) | Quaternions.Normalized | Quaternions.CorrectedNormalized |
| src/Orientation.cpp:34-35 | `ApplyRotation_YawAxis` puts its angle in slot 0, which `FromEulerRadians` and `GetPitch` treat as pitch; `ApplyRotation_PitchAxis` puts its angle in slot 1, the yaw slot | yaw = pi applies (0, 1, 0, 0), while `ApplyRotation` of the triple (0, pi, 0) applies (0, 0, 1, 0) | the yaw angle in slot 1 and the pitch angle in slot 0, so that applying yaw, pitch and roll after a reset gives the quaternion of the full triple | medium (not executed) | Orientations.AxisHelpersSwapYawAndPitch | Orientations.ApplyAxisHelpersAfterReset |
| src/Orientation.cpp:27-28 | `ApplyRotationDegrees_YawAxis` and `ApplyRotationDegrees_PitchAxis` swap the slots in the same way | yaw = 180 degrees applies the quaternion of the triple (180, 0, 0), not that of (0, 180, 0) | the degree yaw angle in slot 1 and the degree pitch angle in slot 0 | medium (not executed) | Orientations.DegreeAxisHelpersSwapYawAndPitch | Orientations.Orientation.CorrectedApplyRotationDegreesYawAxis |
