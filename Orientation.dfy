/**
  Orientation: a rotation held as two quaternions, the local rotation and the
  parent it is relative to. The global rotation is parent * local. Applying a
  rotation right-multiplies the local part, setting replaces it, resetting
  sets both parts to the identity and recentering makes the parent the
  conjugate of the local part.
*/
module Orientations {
  import opened CMath
  import Q = Quaternions
  import V = Vectors

  class Orientation {
    var local: Q.Quaternion
    var parent: Q.Quaternion

    /** A new orientation has identity local and parent parts (NewOrientationIsUnrotated reads it back). */
    constructor ()
      ensures local == Q.Identity() && parent == Q.Identity()
    {
      local := Q.Identity();
      parent := Q.Identity();
    }

    // -------------------------------------------------------------- getters

    /**
      The global rotation parent * local. Its squared length is the product of
      the parts' squared lengths, and an identity part leaves the other one.
    */
    function GetGlobalRotationAsQuaternion(): (r: Q.Quaternion)
      reads this
      ensures Q.LengthSquared(r) == Q.LengthSquared(parent) * Q.LengthSquared(local)
      ensures parent == Q.Identity() ==> r == local
      ensures local == Q.Identity() ==> r == parent
    {
      Q.LengthSquaredMul(parent, local);
      Q.Mul(parent, local)
    }

    /** The global rotation as an Euler triple in radians. */
    function GetGlobalRotationAsEulerRadians(lib: MathLib): (r: V.Float3)
      reads this
      requires Q.LengthSquared(parent) != 0.0 && Q.LengthSquared(local) != 0.0
      ensures Q.Mul(parent, local) == Q.Identity() && Atan2Law(lib) ==> r == V.Zero()
    {
      Q.MulNonZero(parent, local);
      assert Atan2Law(lib) ==> Q.ToEulerRadians(lib, Q.Identity()) == V.Zero() by {
        if Atan2Law(lib) { Q.ToEulerRadiansOfScalar(lib, Q.Identity()); }
      }
      Q.ToEulerRadians(lib, GetGlobalRotationAsQuaternion())
    }

    /** The global rotation as an Euler triple in degrees: the radian triple converted. */
    function GetGlobalRotationAsEulerDegrees(lib: MathLib): (r: V.Float3)
      reads this
      requires PiLaw(lib)
      requires Q.LengthSquared(parent) != 0.0 && Q.LengthSquared(local) != 0.0
      ensures V.EulerRadians(lib, r) == GetGlobalRotationAsEulerRadians(lib)
    {
      Q.MulNonZero(parent, local);
      Q.ToEulerDegrees(lib, GetGlobalRotationAsQuaternion())
    }

    // -------------------------------------------------------------- applying a rotation

    /**
      ApplyRotation(Quaternion): local *= q. The parent is unchanged, so the
      global rotation is right-multiplied by q as well.
    */
    method ApplyRotation(q: Q.Quaternion)
      modifies this
      ensures local == Q.Mul(old(local), q) && parent == old(parent)
      ensures Q.Mul(parent, local) == Q.Mul(Q.Mul(old(parent), old(local)), q)
    {
      var target := new Q.QuaternionVar(local);
      var operand := new Q.QuaternionVar(q);
      target.MulAssign(operand);
      local := target.Value();
      Q.MulAssociative(parent, old(local), q);
    }

    /** ApplyRotation(Float3): the radian triple converted by FromEulerRadians, then applied. */
    method ApplyRotationRadians(lib: MathLib, rotationRadians: V.Float3)
      modifies this
      ensures local == Q.Mul(old(local), Q.FromEulerRadians(lib, rotationRadians)) && parent == old(parent)
    {
      ApplyRotation(Q.FromEulerRadians(lib, rotationRadians));
    }

    /** ApplyRotationDegrees: the degree triple converted by FromEulerDegrees, then applied. */
    method ApplyRotationDegrees(lib: MathLib, rotationDegrees: V.Float3)
      requires PiLaw(lib)
      modifies this
      ensures local == Q.Mul(old(local), Q.FromEulerDegrees(lib, rotationDegrees)) && parent == old(parent)
    {
      ApplyRotation(Q.FromEulerDegrees(lib, rotationDegrees));
    }

    /**
      ApplyRotation_YawAxis as written: the angle goes into slot 0 of the
      triple, which FromEulerRadians reads as pitch, so the applied quaternion
      is the pitch-only one (cos h, sin h, 0, 0).
    */
    method ApplyRotationYawAxis(lib: MathLib, yaw: real)
      modifies this
      ensures local == Q.Mul(old(local), Q.FromEulerRadians(lib, V.Float3(yaw, 0.0, 0.0))) && parent == old(parent)
      ensures TrigLaws(lib) ==>
              local == Q.Mul(old(local), Q.Quaternion(lib.cos(yaw * 0.5), lib.sin(yaw * 0.5), 0.0, 0.0))
    {
      ApplyRotation(Q.FromEulerRadians(lib, V.Float3(yaw, 0.0, 0.0)));
      if TrigLaws(lib) { Q.FromEulerRadiansPitchOnly(lib, yaw); }
    }

    /**
      ApplyRotation_PitchAxis as written: the angle goes into slot 1, which
      FromEulerRadians reads as yaw, so the applied quaternion is the yaw-only
      one (cos h, 0, sin h, 0).
    */
    method ApplyRotationPitchAxis(lib: MathLib, pitch: real)
      modifies this
      ensures local == Q.Mul(old(local), Q.FromEulerRadians(lib, V.Float3(0.0, pitch, 0.0))) && parent == old(parent)
      ensures TrigLaws(lib) ==>
              local == Q.Mul(old(local), Q.Quaternion(lib.cos(pitch * 0.5), 0.0, lib.sin(pitch * 0.5), 0.0))
    {
      ApplyRotation(Q.FromEulerRadians(lib, V.Float3(0.0, pitch, 0.0)));
      if TrigLaws(lib) { Q.FromEulerRadiansYawOnly(lib, pitch); }
    }

    /** ApplyRotation_RollAxis: the angle goes into slot 2, the roll slot: (cos h, 0, 0, sin h). */
    method ApplyRotationRollAxis(lib: MathLib, roll: real)
      modifies this
      ensures local == Q.Mul(old(local), Q.FromEulerRadians(lib, V.Float3(0.0, 0.0, roll))) && parent == old(parent)
      ensures TrigLaws(lib) ==>
              local == Q.Mul(old(local), Q.Quaternion(lib.cos(roll * 0.5), 0.0, 0.0, lib.sin(roll * 0.5)))
    {
      ApplyRotation(Q.FromEulerRadians(lib, V.Float3(0.0, 0.0, roll)));
      if TrigLaws(lib) { Q.FromEulerRadiansRollOnly(lib, roll); }
    }

    /** The yaw helper with the angle in the yaw slot (slot 1), as FromEulerRadians expects. */
    method CorrectedApplyRotationYawAxis(lib: MathLib, yaw: real)
      modifies this
      ensures local == Q.Mul(old(local), Q.FromEulerRadians(lib, V.Float3(0.0, yaw, 0.0))) && parent == old(parent)
    {
      ApplyRotation(Q.FromEulerRadians(lib, V.Float3(0.0, yaw, 0.0)));
    }

    /** The pitch helper with the angle in the pitch slot (slot 0), as FromEulerRadians expects. */
    method CorrectedApplyRotationPitchAxis(lib: MathLib, pitch: real)
      modifies this
      ensures local == Q.Mul(old(local), Q.FromEulerRadians(lib, V.Float3(pitch, 0.0, 0.0))) && parent == old(parent)
    {
      ApplyRotation(Q.FromEulerRadians(lib, V.Float3(pitch, 0.0, 0.0)));
    }

    /** ApplyRotationDegrees_YawAxis as written: the angle in degrees goes into slot 0 (pitch). */
    method ApplyRotationDegreesYawAxis(lib: MathLib, yaw: real)
      requires PiLaw(lib)
      modifies this
      ensures local == Q.Mul(old(local), Q.FromEulerDegrees(lib, V.Float3(yaw, 0.0, 0.0))) && parent == old(parent)
    {
      ApplyRotation(Q.FromEulerDegrees(lib, V.Float3(yaw, 0.0, 0.0)));
    }

    /** ApplyRotationDegrees_PitchAxis as written: the angle in degrees goes into slot 1 (yaw). */
    method ApplyRotationDegreesPitchAxis(lib: MathLib, pitch: real)
      requires PiLaw(lib)
      modifies this
      ensures local == Q.Mul(old(local), Q.FromEulerDegrees(lib, V.Float3(0.0, pitch, 0.0))) && parent == old(parent)
    {
      ApplyRotation(Q.FromEulerDegrees(lib, V.Float3(0.0, pitch, 0.0)));
    }

    /** ApplyRotationDegrees_RollAxis: the angle in degrees goes into slot 2, the roll slot. */
    method ApplyRotationDegreesRollAxis(lib: MathLib, roll: real)
      requires PiLaw(lib)
      modifies this
      ensures local == Q.Mul(old(local), Q.FromEulerDegrees(lib, V.Float3(0.0, 0.0, roll))) && parent == old(parent)
    {
      ApplyRotation(Q.FromEulerDegrees(lib, V.Float3(0.0, 0.0, roll)));
    }

    /** The degree yaw helper with the angle in the yaw slot (slot 1). */
    method CorrectedApplyRotationDegreesYawAxis(lib: MathLib, yaw: real)
      requires PiLaw(lib)
      modifies this
      ensures local == Q.Mul(old(local), Q.FromEulerDegrees(lib, V.Float3(0.0, yaw, 0.0))) && parent == old(parent)
    {
      ApplyRotation(Q.FromEulerDegrees(lib, V.Float3(0.0, yaw, 0.0)));
    }

    /** The degree pitch helper with the angle in the pitch slot (slot 0). */
    method CorrectedApplyRotationDegreesPitchAxis(lib: MathLib, pitch: real)
      requires PiLaw(lib)
      modifies this
      ensures local == Q.Mul(old(local), Q.FromEulerDegrees(lib, V.Float3(pitch, 0.0, 0.0))) && parent == old(parent)
    {
      ApplyRotation(Q.FromEulerDegrees(lib, V.Float3(pitch, 0.0, 0.0)));
    }

    // -------------------------------------------------------------- recentering, resetting and setting

    /**
      Recenter: the parent becomes the conjugate of the local part, which is
      kept. The global rotation is then (|local|^2, 0, 0, 0): the identity for
      a unit local part.
    */
    method Recenter()
      modifies this
      ensures parent == Q.Inversed(old(local)) && local == old(local)
      ensures Q.Mul(parent, local) == Q.Quaternion(Q.LengthSquared(local), 0.0, 0.0, 0.0)
      ensures Q.IsUnit(local) ==> Q.Mul(parent, local) == Q.Identity()
    {
      parent := Q.Inversed(local);
      Q.MulInversed(local);
    }

    /** Reset: both parts become the identity (ResetIsUnrotated reads the global rotation back). */
    method Reset()
      modifies this
      ensures local == Q.Identity() && parent == Q.Identity()
    {
      local := Q.Identity();
      parent := Q.Identity();
    }

    /** SetRotation(Quaternion): the local part is replaced; the parent is kept. */
    method SetRotation(q: Q.Quaternion)
      modifies this
      ensures local == q && parent == old(parent)
    {
      local := q;
    }

    /** SetRotation(Float3): the local part becomes the quaternion of the radian triple. */
    method SetRotationRadians(lib: MathLib, rotationRadians: V.Float3)
      modifies this
      ensures local == Q.FromEulerRadians(lib, rotationRadians) && parent == old(parent)
    {
      SetRotation(Q.FromEulerRadians(lib, rotationRadians));
    }

    /** SetGlobalRotation(Quaternion): reset, then set the local part, so the global rotation is q. */
    method SetGlobalRotation(q: Q.Quaternion)
      modifies this
      ensures local == q && parent == Q.Identity()
      ensures Q.Mul(parent, local) == q
    {
      Reset();
      SetRotation(q);
    }

    /** SetGlobalRotation(Float3): reset, then set the local part from the radian triple. */
    method SetGlobalRotationRadians(lib: MathLib, rotationRadians: V.Float3)
      modifies this
      ensures local == Q.FromEulerRadians(lib, rotationRadians) && parent == Q.Identity()
      ensures Q.Mul(parent, local) == Q.FromEulerRadians(lib, rotationRadians)
    {
      Reset();
      SetRotationRadians(lib, rotationRadians);
    }
  }

  // ---------------------------------------------------------------- sequences of calls

  /**
    A new orientation reports the identity as its global rotation (its Euler
    readings are then the zero triple, by the getters' contracts).
  */
  method NewOrientationIsUnrotated() returns (quaternion: Q.Quaternion)
    ensures quaternion == Q.Identity()
  {
    var o := new Orientation();
    quaternion := o.GetGlobalRotationAsQuaternion();
  }

  /** After a reset, whatever came before, the global rotation is the identity. */
  method ResetIsUnrotated(o: Orientation) returns (quaternion: Q.Quaternion)
    modifies o
    ensures quaternion == Q.Identity()
  {
    o.Reset();
    quaternion := o.GetGlobalRotationAsQuaternion();
  }

  /**
    After a reset, applying the yaw-only, the pitch-only and the roll-only
    triples in that order leaves the global rotation equal to the quaternion
    of the full triple.
  */
  method ApplyYawPitchRollAfterReset(o: Orientation, lib: MathLib, pitch: real, yaw: real, roll: real)
    requires TrigLaws(lib)
    modifies o
    ensures o.GetGlobalRotationAsQuaternion() == Q.FromEulerRadians(lib, V.Float3(pitch, yaw, roll))
  {
    o.Reset();
    o.ApplyRotationRadians(lib, V.Float3(0.0, yaw, 0.0));
    o.ApplyRotationRadians(lib, V.Float3(pitch, 0.0, 0.0));
    o.ApplyRotationRadians(lib, V.Float3(0.0, 0.0, roll));
    Q.FromEulerRadiansComposition(lib, pitch, yaw, roll);
  }

  /**
    After a reset, applying the yaw-only and then the pitch-only triple leaves
    the global rotation equal to the quaternion of (pitch, yaw, 0).
  */
  method ApplyYawPitchAfterReset(o: Orientation, lib: MathLib, pitch: real, yaw: real)
    requires TrigLaws(lib)
    modifies o
    ensures o.GetGlobalRotationAsQuaternion() == Q.FromEulerRadians(lib, V.Float3(pitch, yaw, 0.0))
  {
    var qy := Q.FromEulerRadians(lib, V.Float3(0.0, yaw, 0.0));
    var qp := Q.FromEulerRadians(lib, V.Float3(pitch, 0.0, 0.0));
    o.Reset();
    o.ApplyRotationRadians(lib, V.Float3(0.0, yaw, 0.0));
    o.ApplyRotationRadians(lib, V.Float3(pitch, 0.0, 0.0));
    Q.FromEulerRadiansComposition(lib, pitch, yaw, 0.0);
    assert Q.FromEulerRadians(lib, V.Float3(0.0, 0.0, 0.0)) == Q.Identity() by {
      assert V.Float3(0.0, 0.0, 0.0) == V.Zero();
    }
    assert Q.Mul(Q.Mul(qy, qp), Q.Identity()) == Q.Mul(qy, qp);
    assert Q.Mul(Q.Identity(), qy) == qy;
  }

  /**
    After a reset, applying the yaw-only and then the roll-only triple leaves
    the global rotation equal to the quaternion of (0, yaw, roll).
  */
  method ApplyYawRollAfterReset(o: Orientation, lib: MathLib, yaw: real, roll: real)
    requires TrigLaws(lib)
    modifies o
    ensures o.GetGlobalRotationAsQuaternion() == Q.FromEulerRadians(lib, V.Float3(0.0, yaw, roll))
  {
    var qy := Q.FromEulerRadians(lib, V.Float3(0.0, yaw, 0.0));
    var qr := Q.FromEulerRadians(lib, V.Float3(0.0, 0.0, roll));
    o.Reset();
    o.ApplyRotationRadians(lib, V.Float3(0.0, yaw, 0.0));
    o.ApplyRotationRadians(lib, V.Float3(0.0, 0.0, roll));
    Q.FromEulerRadiansComposition(lib, 0.0, yaw, roll);
    assert Q.FromEulerRadians(lib, V.Float3(0.0, 0.0, 0.0)) == Q.Identity() by {
      assert V.Float3(0.0, 0.0, 0.0) == V.Zero();
    }
    assert Q.Mul(qy, Q.Identity()) == qy;
    assert Q.Mul(Q.Identity(), qy) == qy;
  }

  /**
    After a reset, applying the pitch-only and then the roll-only triple
    leaves the global rotation equal to the quaternion of (pitch, 0, roll).
  */
  method ApplyPitchRollAfterReset(o: Orientation, lib: MathLib, pitch: real, roll: real)
    requires TrigLaws(lib)
    modifies o
    ensures o.GetGlobalRotationAsQuaternion() == Q.FromEulerRadians(lib, V.Float3(pitch, 0.0, roll))
  {
    var qp := Q.FromEulerRadians(lib, V.Float3(pitch, 0.0, 0.0));
    var qr := Q.FromEulerRadians(lib, V.Float3(0.0, 0.0, roll));
    o.Reset();
    o.ApplyRotationRadians(lib, V.Float3(pitch, 0.0, 0.0));
    o.ApplyRotationRadians(lib, V.Float3(0.0, 0.0, roll));
    assert o.local == Q.Mul(Q.Mul(Q.Identity(), qp), qr) && o.parent == Q.Identity();
    Q.FromEulerRadiansComposition(lib, pitch, 0.0, roll);
    assert Q.FromEulerRadians(lib, V.Float3(0.0, 0.0, 0.0)) == Q.Identity() by {
      assert V.Float3(0.0, 0.0, 0.0) == V.Zero();
    }
    assert Q.Mul(Q.Identity(), o.local) == o.local;
  }

  /** The same sequence through the corrected yaw and pitch helpers and the roll helper. */
  method ApplyAxisHelpersAfterReset(o: Orientation, lib: MathLib, pitch: real, yaw: real, roll: real)
    requires TrigLaws(lib)
    modifies o
    ensures o.GetGlobalRotationAsQuaternion() == Q.FromEulerRadians(lib, V.Float3(pitch, yaw, roll))
  {
    o.Reset();
    o.CorrectedApplyRotationYawAxis(lib, yaw);
    o.CorrectedApplyRotationPitchAxis(lib, pitch);
    o.ApplyRotationRollAxis(lib, roll);
    Q.FromEulerRadiansComposition(lib, pitch, yaw, roll);
  }

  /**
    Setting the global rotation from a quaternion built from degrees, or from
    the same triple converted to radians, gives that quaternion back.
  */
  method SetGlobalRotationBothWays(lib: MathLib, rotationDegrees: V.Float3) returns (byQuaternion: Q.Quaternion, byRadians: Q.Quaternion)
    requires PiLaw(lib)
    ensures byQuaternion == Q.FromEulerDegrees(lib, rotationDegrees)
    ensures byRadians == Q.FromEulerDegrees(lib, rotationDegrees)
  {
    var o := new Orientation();
    o.SetGlobalRotation(Q.FromEulerDegrees(lib, rotationDegrees));
    byQuaternion := o.GetGlobalRotationAsQuaternion();
    o.SetGlobalRotationRadians(lib, V.EulerRadians(lib, rotationDegrees));
    byRadians := o.GetGlobalRotationAsQuaternion();
  }

  /** A rotation applied to a new orientation and then recentered reads back as the identity. */
  method RecenterAfterRotation(lib: MathLib, rotationDegrees: V.Float3) returns (centered: Q.Quaternion)
    requires TrigLaws(lib) && PiLaw(lib)
    ensures centered == Q.Identity()
  {
    var o := new Orientation();
    o.ApplyRotationDegrees(lib, rotationDegrees);
    o.Recenter();
    centered := o.GetGlobalRotationAsQuaternion();
  }

  /**
    Clearing the local part after a recenter (setting it from the zero
    triple) leaves the conjugate of the rotation applied before as the global
    rotation.
  */
  method ClearLocalAfterRecenter(lib: MathLib, rotationDegrees: V.Float3) returns (cleared: Q.Quaternion)
    requires TrigLaws(lib) && PiLaw(lib)
    ensures cleared == Q.Inversed(Q.FromEulerDegrees(lib, rotationDegrees))
  {
    var o := new Orientation();
    o.ApplyRotationDegrees(lib, rotationDegrees);
    o.Recenter();
    o.SetRotationRadians(lib, V.Zero());
    cleared := o.GetGlobalRotationAsQuaternion();
  }

  /**
    The as-written yaw and pitch helpers swap their slots: for an angle whose
    half has a non-zero sine, the yaw helper applies a different quaternion
    than the yaw-only triple does, and the pitch helper a different one than
    the pitch-only triple.
  */
  lemma AxisHelpersSwapYawAndPitch(lib: MathLib, t: real)
    requires TrigLaws(lib)
    requires lib.sin(t * 0.5) != 0.0
    ensures Q.FromEulerRadians(lib, V.Float3(t, 0.0, 0.0)) != Q.FromEulerRadians(lib, V.Float3(0.0, t, 0.0))
  {
    Q.FromEulerRadiansPitchOnly(lib, t);
    Q.FromEulerRadiansYawOnly(lib, t);
  }

  /** The same swap in the degree helpers. */
  lemma DegreeAxisHelpersSwapYawAndPitch(lib: MathLib, t: real)
    requires TrigLaws(lib) && PiLaw(lib)
    requires lib.sin(t * (lib.pi / 180.0) * 0.5) != 0.0
    ensures Q.FromEulerDegrees(lib, V.Float3(t, 0.0, 0.0)) != Q.FromEulerDegrees(lib, V.Float3(0.0, t, 0.0))
  {
    var radians := t * (lib.pi / 180.0);
    assert V.EulerRadians(lib, V.Float3(t, 0.0, 0.0)) == V.Float3(radians, 0.0, 0.0);
    assert V.EulerRadians(lib, V.Float3(0.0, t, 0.0)) == V.Float3(0.0, radians, 0.0);
    AxisHelpersSwapYawAndPitch(lib, radians);
  }
}
