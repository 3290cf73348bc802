/**
 * CoordinateMapper: turns a Galaxy Buds orientation quaternion into an
 * OpenTrack head pose, optionally relative to a stored reference
 * orientation (the "centre").
 */
module CoordinateMapping {
  import opened Wrappers
  import opened Quaternions
  import opened MathExtensions
  import opened HeadPoses

  /** d degrees back to radians. */
  function Radians(t: Transcendentals, d: real): (r: real)
    ensures r * 180.0 == d * t.pi
  {
    d * t.pi / 180.0
  }

  lemma RadiansOfDegrees(t: Transcendentals, r: real)
    ensures Radians(t, ToDegrees(t, r)) == r
  {
    var d := ToDegrees(t, r);
    assert d * t.pi == r * 180.0;
    assert Radians(t, d) * 180.0 == r * 180.0;
  }

  lemma DegreesOfRadians(t: Transcendentals, d: real)
    ensures ToDegrees(t, Radians(t, d)) == d
  {
    var r := Radians(t, d);
    assert ToDegrees(t, r) * t.pi == r * 180.0 == d * t.pi;
    CancelPositive(ToDegrees(t, r), d, t.pi);
  }

  /**
   * The axis mapping from the sensor's Euler angles (radians) to the
   * OpenTrack pose (degrees): the sensor roll becomes the yaw, the pitch
   * changes sign, and the sensor yaw becomes the roll.
   */
  function MapAxes(t: Transcendentals, e: Euler, timestamp: int): (p: HeadPose)
    ensures p.yaw * t.pi == e.roll * 180.0
    ensures p.pitch * t.pi == -(e.pitch * 180.0)
    ensures p.roll * t.pi == e.yaw * 180.0
    ensures p.timestamp == timestamp
  {
    HeadPose(ToDegrees(t, e.roll), -ToDegrees(t, e.pitch), ToDegrees(t, e.yaw), timestamp)
  }

  /** The sensor's Euler angles that a pose came from. */
  function UnmapAxes(t: Transcendentals, p: HeadPose): (e: Euler)
    ensures e.roll * 180.0 == p.yaw * t.pi
    ensures e.pitch * 180.0 == -(p.pitch * t.pi)
    ensures e.yaw * 180.0 == p.roll * t.pi
  {
    Euler(Radians(t, p.yaw), -Radians(t, p.pitch), Radians(t, p.roll))
  }

  /** The axis mapping loses nothing: it is undone by UnmapAxes, in both orders. */
  lemma AxesRoundTrip(t: Transcendentals, e: Euler, p: HeadPose)
    ensures UnmapAxes(t, MapAxes(t, e, p.timestamp)) == e
    ensures MapAxes(t, UnmapAxes(t, p), p.timestamp) == p
  {
    RadiansOfDegrees(t, e.roll);
    RadiansOfDegrees(t, e.pitch);
    RadiansOfDegrees(t, e.yaw);
    DegreesOfRadians(t, p.yaw);
    DegreesOfRadians(t, p.pitch);
    DegreesOfRadians(t, p.roll);
    ToDegreesFacts(t, Radians(t, p.pitch));
    assert Radians(t, -ToDegrees(t, e.pitch)) == -Radians(t, ToDegrees(t, e.pitch));
  }

  /** Zero radians on every axis map to the zero pose. */
  lemma ZeroAxes(t: Transcendentals, now: int)
    ensures MapAxes(t, Euler(0.0, 0.0, 0.0), now) == HeadPose(0.0, 0.0, 0.0, now)
  {
    ToDegreesFacts(t, 0.0);
  }

  class CoordinateMapper {
    /** The centre orientation, stored as given; None until Recenter is called. */
    var referenceQuaternion: Option<Quaternion>
    var isCalibrated: bool

    /**
     * The two fields change together, so the mapper is calibrated exactly
     * when it holds a reference; a reference is never the zero quaternion,
     * whose Inverse divides by zero.
     */
    ghost predicate Valid()
      reads this
    {
      && isCalibrated == referenceQuaternion.Some?
      && (referenceQuaternion.Some? ==> IsNonzero(referenceQuaternion.value))
    }

    /** A new mapper is not calibrated. */
    constructor()
      ensures Valid()
      ensures referenceQuaternion == None && !isCalibrated
    {
      referenceQuaternion := None;
      isCalibrated := false;
    }

    /**
     * The re-centred quaternion Inverse(reference) * q when calibrated,
     * q itself otherwise: the rotation that, applied after the reference,
     * gives q. The reference itself is re-centred to the identity rotation.
     */
    function AdjustedQuaternion(q: Quaternion): (a: Quaternion)
      reads this
      requires Valid()
      ensures !isCalibrated ==> a == q
      ensures isCalibrated ==> Multiply(referenceQuaternion.value, a) == q
      ensures referenceQuaternion == Some(q) ==> a == Identity
    {
      if isCalibrated && referenceQuaternion.Some? then
        InverseTimesSelf(referenceQuaternion.value);
        InverseCancels(referenceQuaternion.value, q);
        Multiply(Inverse(referenceQuaternion.value), q)
      else
        q
    }

    /**
     * CoordinateMapper.QuaternionToHeadPose: the pose of the re-centred
     * quaternion, in degrees, with the sensor roll as yaw, the negated
     * sensor pitch as pitch and the sensor yaw as roll, stamped with the
     * clock reading `now`.
     */
    function QuaternionToHeadPose(t: Transcendentals, q: Quaternion, now: int): (p: HeadPose)
      reads this
      requires Valid()
      ensures p.timestamp == now
      ensures UnmapAxes(t, p) == ToRollPitchYaw(t, AdjustedQuaternion(q))
    {
      var e := ToRollPitchYaw(t, AdjustedQuaternion(q));
      AxesRoundTrip(t, e, HeadPose(0.0, 0.0, 0.0, now));
      MapAxes(t, e, now)
    }

    /** CoordinateMapper.Recenter: q, not normalised, becomes the reference. */
    method Recenter(q: Quaternion)
      requires IsNonzero(q)
      modifies this
      ensures Valid()
      ensures referenceQuaternion == Some(q) && isCalibrated
    {
      referenceQuaternion := Some(q);
      isCalibrated := true;
    }

    /** CoordinateMapper.ClearRecenter: back to the state of a new mapper. */
    method ClearRecenter()
      modifies this
      ensures Valid()
      ensures referenceQuaternion == None && !isCalibrated
    {
      referenceQuaternion := None;
      isCalibrated := false;
    }
  }

  /**
   * Right after Recenter(q), converting q gives the pose an uncalibrated
   * mapper gives for the identity rotation; with primitives exact at the
   * identity that pose is zero on every axis.
   */
  lemma RecenteredSampleIsCentre(m: CoordinateMapper, t: Transcendentals, q: Quaternion, now: int)
    requires m.Valid() && m.referenceQuaternion == Some(q)
    ensures UnmapAxes(t, m.QuaternionToHeadPose(t, q, now)) == ToRollPitchYaw(t, Identity)
    ensures ExactAtIdentity(t) ==> m.QuaternionToHeadPose(t, q, now) == HeadPose(0.0, 0.0, 0.0, now)
  {
    var p := m.QuaternionToHeadPose(t, q, now);
    assert m.AdjustedQuaternion(q) == Identity;
    if ExactAtIdentity(t) {
      IdentityDecomposesToZero(t);
      AxesRoundTrip(t, Euler(0.0, 0.0, 0.0), p);
      assert p == MapAxes(t, Euler(0.0, 0.0, 0.0), now);
      ZeroAxes(t, now);
    }
  }

  /** An uncalibrated mapper converts q itself: the pose is the plain decomposition of q. */
  lemma UncalibratedIsPlain(m: CoordinateMapper, t: Transcendentals, q: Quaternion, now: int)
    requires m.Valid() && !m.isCalibrated
    ensures m.QuaternionToHeadPose(t, q, now) == MapAxes(t, ToRollPitchYaw(t, q), now)
  {
    var p := m.QuaternionToHeadPose(t, q, now);
    AxesRoundTrip(t, ToRollPitchYaw(t, q), p);
  }
}
