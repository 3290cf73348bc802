/**
 * MathExtensions.ToRollPitchYaw and ToDegrees over exact reals. The
 * floating-point primitives without an exact real counterpart
 * (Quaternion.Normalize takes a square root; Math.Atan2 and Math.Asin are
 * transcendental; Math.PI is a rounded constant) are supplied by the caller
 * as a Transcendentals value, so every fact proved here holds for whatever
 * those primitives return. What is proved is structural: that the
 * quaternion is normalised before anything reads it, which polynomial feeds
 * which primitive, when the pitch saturates, and the order of the results.
 */
module MathExtensions {
  import opened Quaternions

  type Positive = r: real | r > 0.0 witness 1.0

  datatype Transcendentals = Transcendentals(
    normalize: Quaternion -> Quaternion,
    atan2: (real, real) -> real,
    asin: real -> real,
    pi: Positive)

  /** The five polynomials of ToRollPitchYaw, read off the normalised quaternion. */
  datatype EulerArguments = EulerArguments(
    sinrCosp: real, cosrCosp: real,
    sinp: real,
    sinyCosp: real, cosyCosp: real)

  /** Euler angles in radians, in the order (roll, pitch, yaw) of the returned tuple. */
  datatype Euler = Euler(roll: real, pitch: real, yaw: real)

  function Arguments(n: Quaternion): EulerArguments {
    EulerArguments(
      2.0 * (n.w * n.x + n.y * n.z), 1.0 - 2.0 * (n.x * n.x + n.y * n.y),
      2.0 * (n.w * n.y - n.z * n.x),
      2.0 * (n.w * n.z + n.x * n.y), 1.0 - 2.0 * (n.y * n.y + n.z * n.z))
  }

  function AbsReal(r: real): real {
    if r < 0.0 then -r else r
  }

  /** The pitch branch: saturate to +-pi/2 (the sign of sinp) when |sinp| >= 1, else Asin. */
  function Pitch(t: Transcendentals, sinp: real): (p: real)
    ensures AbsReal(sinp) >= 1.0 ==> AbsReal(p) * 2.0 == t.pi && (p < 0.0 <==> sinp < 0.0)
    ensures AbsReal(sinp) < 1.0 ==> p == t.asin(sinp)
  {
    if AbsReal(sinp) >= 1.0 then
      var half: real := t.pi / 2.0;
      if sinp < 0.0 then -half else half
    else
      t.asin(sinp)
  }

  /** MathExtensions.ToRollPitchYaw: normalise, then roll, pitch and yaw from the polynomials. */
  function ToRollPitchYaw(t: Transcendentals, q: Quaternion): (e: Euler)
    ensures var sinp := Arguments(t.normalize(q)).sinp;
            && (AbsReal(sinp) >= 1.0 ==> AbsReal(e.pitch) * 2.0 == t.pi && (e.pitch < 0.0 <==> sinp < 0.0))
            && (AbsReal(sinp) < 1.0 ==> e.pitch == t.asin(sinp))
  {
    var a := Arguments(t.normalize(q));
    Euler(t.atan2(a.sinrCosp, a.cosrCosp), Pitch(t, a.sinp), t.atan2(a.sinyCosp, a.cosyCosp))
  }

  /** MathExtensions.ToDegrees: d degrees are the same angle as r radians, d * pi == r * 180. */
  function ToDegrees(t: Transcendentals, r: real): (d: real)
    ensures d * t.pi == r * 180.0
  {
    r * (180.0 / t.pi)
  }

  /**
   * The decomposition reads the input only through the normalised
   * quaternion: inputs that normalise alike decompose alike.
   */
  lemma NormalizedFirst(t: Transcendentals, q1: Quaternion, q2: Quaternion)
    requires t.normalize(q1) == t.normalize(q2)
    ensures ToRollPitchYaw(t, q1) == ToRollPitchYaw(t, q2)
  {
  }

  /** Which polynomial each primitive receives, and the output order roll, pitch, yaw. */
  lemma DecompositionArguments(t: Transcendentals, q: Quaternion)
    ensures var n := t.normalize(q);
            var e := ToRollPitchYaw(t, q);
            && e.roll == t.atan2(2.0 * (n.w * n.x + n.y * n.z), 1.0 - 2.0 * (n.x * n.x + n.y * n.y))
            && e.yaw == t.atan2(2.0 * (n.w * n.z + n.x * n.y), 1.0 - 2.0 * (n.y * n.y + n.z * n.z))
            && e.pitch == Pitch(t, 2.0 * (n.w * n.y - n.z * n.x))
  {
    var n := t.normalize(q);
    var a := Arguments(n);
    assert ToRollPitchYaw(t, q) == Euler(t.atan2(a.sinrCosp, a.cosrCosp), Pitch(t, a.sinp), t.atan2(a.sinyCosp, a.cosyCosp));
    assert a == EulerArguments(2.0 * (n.w * n.x + n.y * n.z), 1.0 - 2.0 * (n.x * n.x + n.y * n.y),
                               2.0 * (n.w * n.y - n.z * n.x),
                               2.0 * (n.w * n.z + n.x * n.y), 1.0 - 2.0 * (n.y * n.y + n.z * n.z));
  }

  /**
   * When |sinp| >= 1 the pitch is exactly pi/2 with the sign of sinp, and
   * Asin is not consulted: any other Asin gives the same pitch. Otherwise
   * the pitch is Asin(sinp).
   */
  lemma PitchBranches(t: Transcendentals, sinp: real, otherAsin: real -> real)
    ensures AbsReal(sinp) >= 1.0 && sinp > 0.0 ==> Pitch(t, sinp) * 2.0 == t.pi
    ensures AbsReal(sinp) >= 1.0 && sinp < 0.0 ==> Pitch(t, sinp) * 2.0 == -(t.pi as real)
    ensures AbsReal(sinp) >= 1.0 ==> Pitch(t, sinp) == Pitch(t.(asin := otherAsin), sinp)
    ensures AbsReal(sinp) < 1.0 ==> Pitch(t, sinp) == t.asin(sinp)
  {
  }

  /** A saturated pitch is exactly +90 or -90 degrees. */
  lemma SaturatedPitchDegrees(t: Transcendentals, sinp: real)
    requires AbsReal(sinp) >= 1.0
    ensures ToDegrees(t, Pitch(t, sinp)) == if sinp < 0.0 then -90.0 else 90.0
  {
    var p := Pitch(t, sinp);
    var d := ToDegrees(t, p);
    if sinp < 0.0 {
      assert p * 2.0 == -(t.pi as real);
      assert d * t.pi == (-90.0) * t.pi;
    } else {
      assert p * 2.0 == t.pi;
      assert d * t.pi == 90.0 * t.pi;
    }
    CancelPositive(d, if sinp < 0.0 then -90.0 else 90.0, t.pi);
  }

  lemma CancelPositive(a: real, b: real, c: real)
    requires c > 0.0 && a * c == b * c
    ensures a == b
  {
  }

  /** ToDegrees is odd and fixes zero; pi radians are 180 degrees. */
  lemma ToDegreesFacts(t: Transcendentals, r: real)
    ensures ToDegrees(t, -r) == -ToDegrees(t, r)
    ensures ToDegrees(t, 0.0) == 0.0
    ensures ToDegrees(t, t.pi) == 180.0
  {
    CancelPositive(ToDegrees(t, t.pi), 180.0, t.pi);
  }

  /** For the identity rotation both Atan2 numerators vanish, both denominators are 1, and sinp is 0. */
  lemma IdentityArguments()
    ensures Arguments(Identity) == EulerArguments(0.0, 1.0, 0.0, 0.0, 1.0)
  {
  }

  /** Primitives that are exact at the identity rotation: Normalize fixes it, Atan2(0, 1) and Asin(0) are 0. */
  predicate ExactAtIdentity(t: Transcendentals) {
    t.normalize(Identity) == Identity && t.atan2(0.0, 1.0) == 0.0 && t.asin(0.0) == 0.0
  }

  /** With such primitives the identity rotation decomposes to zero roll, pitch and yaw. */
  lemma IdentityDecomposesToZero(t: Transcendentals)
    requires ExactAtIdentity(t)
    ensures ToRollPitchYaw(t, Identity) == Euler(0.0, 0.0, 0.0)
  {
    IdentityArguments();
    assert Pitch(t, 0.0) == 0.0;
  }

  /**
   * For a unit quaternion every polynomial lies in [-1, 1]; in exact
   * arithmetic the pitch therefore saturates only at sinp == 1 or -1.
   */
  lemma UnitArgumentsBounded(n: Quaternion)
    requires LengthSquared(n) == 1.0
    ensures var a := Arguments(n);
            && -1.0 <= a.sinp <= 1.0
            && -1.0 <= a.sinrCosp <= 1.0 && -1.0 <= a.cosrCosp <= 1.0
            && -1.0 <= a.sinyCosp <= 1.0 && -1.0 <= a.cosyCosp <= 1.0
            && (AbsReal(a.sinp) >= 1.0 ==> a.sinp == 1.0 || a.sinp == -1.0)
  {
    var a := Arguments(n);
    SinpBounded(n);
    RollArgumentsBounded(n);
    YawArgumentsBounded(n);
  }

  lemma SinpBounded(n: Quaternion)
    requires LengthSquared(n) == 1.0
    ensures -1.0 <= Arguments(n).sinp <= 1.0
  {
    DifferenceBound(n.x, n.y, n.z, n.w);
  }

  /** With x^2 + y^2 + z^2 + w^2 == 1: 2(wy - zx) lies in [-1, 1]. */
  lemma DifferenceBound(x: real, y: real, z: real, w: real)
    requires x * x + y * y + z * z + w * w == 1.0
    ensures -1.0 <= 2.0 * (w * y - z * x) <= 1.0
  {
    ProductBound(w, y, z, x);
  }

  lemma RollArgumentsBounded(n: Quaternion)
    requires LengthSquared(n) == 1.0
    ensures -1.0 <= Arguments(n).sinrCosp <= 1.0 && -1.0 <= Arguments(n).cosrCosp <= 1.0
  {
    PairBound(n.x, n.y, n.z, n.w);
  }

  lemma YawArgumentsBounded(n: Quaternion)
    requires LengthSquared(n) == 1.0
    ensures -1.0 <= Arguments(n).sinyCosp <= 1.0 && -1.0 <= Arguments(n).cosyCosp <= 1.0
  {
    PairBound(n.z, n.y, n.x, n.w);
    assert n.x * n.y == n.y * n.x;
  }

  /** With x^2 + y^2 + z^2 + w^2 == 1: 2(wx + yz) and 1 - 2(x^2 + y^2) lie in [-1, 1]. */
  lemma PairBound(x: real, y: real, z: real, w: real)
    requires x * x + y * y + z * z + w * w == 1.0
    ensures -1.0 <= 2.0 * (w * x + y * z) <= 1.0
    ensures -1.0 <= 1.0 - 2.0 * (x * x + y * y) <= 1.0
  {
    ProductBound(w, x, y, z);
    SquaresBound(x, y, z, w);
  }

  /** Two of four squares that sum to at most s sum to at most s. */
  lemma SquaresBound(a: real, b: real, c: real, d: real)
    ensures 0.0 <= a * a + b * b <= a * a + b * b + c * c + d * d
  {
    SquareNonnegative(a);
    SquareNonnegative(b);
    SquareNonnegative(c);
    SquareNonnegative(d);
  }

  /** |ab - cd| and |ab + cd| are at most half the sum of the four squares. */
  lemma ProductBound(a: real, b: real, c: real, d: real)
    ensures 2.0 * (a * b - c * d) <= a * a + b * b + c * c + d * d
    ensures -(a * a + b * b + c * c + d * d) <= 2.0 * (a * b - c * d)
    ensures 2.0 * (a * b + c * d) <= a * a + b * b + c * c + d * d
    ensures -(a * a + b * b + c * c + d * d) <= 2.0 * (a * b + c * d)
  {
    SquareExpansion(a, b);
    SquareExpansion(c, d);
  }

  lemma SquareExpansion(a: real, b: real)
    ensures a * a + b * b - 2.0 * (a * b) >= 0.0
    ensures a * a + b * b + 2.0 * (a * b) >= 0.0
  {
    SquareNonnegative(a - b);
    SquareNonnegative(a + b);
    assert (a - b) * (a - b) == a * a - 2.0 * (a * b) + b * b;
    assert (a + b) * (a + b) == a * a + 2.0 * (a * b) + b * b;
  }
}
