/**
 * The arithmetic that turns sensor samples into the panel's visual transform: radians to
 * degrees, the visual tilt, the depth factor, the accelerometer translation and the two
 * linear interpolations (rotation and parallax) declared for rendering.
 */
module Transform {
  import opened Orientation

  /** `Math.PI`, written as the decimal the double prints as. */
  const Pi: real := 3.141592653589793

  /** Scale applied to the degree-converted beta and gamma before they drive the tilt. */
  const TiltSensitivity: real := 0.15

  /** Growth of the depth factor per radian of beta. */
  const DepthGain: real := 0.08

  /** The accelerometer listener's fixed gain and sensitivity (`15` and `0.05`). */
  const AccelGain: real := 15.0
  const AccelSensitivity: real := 0.05

  /** Radians to degrees; the result is the angle `deg` with `deg * Pi == rad * 180`. */
  function ToDegrees(rad: real): (deg: real)
    ensures deg * Pi == rad * 180.0
    ensures (deg < 0.0 <==> rad < 0.0) && (deg == 0.0 <==> rad == 0.0)
  {
    rad * 180.0 / Pi
  }

  /** Degree conversion is one-to-one, so equal degrees mean equal radians. */
  lemma ToDegreesInjective(r1: real, r2: real)
    ensures ToDegrees(r1) == ToDegrees(r2) <==> r1 == r2
  {
    if ToDegrees(r1) == ToDegrees(r2) {
      assert r1 * 180.0 == r2 * 180.0;
    }
  }

  /** Half a turn is 180 degrees. */
  lemma HalfTurnIs180()
    ensures ToDegrees(Pi) == 180.0
  {
  }

  /** A motion sample's three angles, each converted to degrees. */
  function InDegrees(rotation: Orientation): (o: Orientation)
    ensures o.alpha * Pi == rotation.alpha * 180.0
    ensures o.beta * Pi == rotation.beta * 180.0
    ensures o.gamma * Pi == rotation.gamma * 180.0
  {
    Orientation(ToDegrees(rotation.alpha), ToDegrees(rotation.beta), ToDegrees(rotation.gamma))
  }

  /** Two samples give the same orientation in degrees exactly when they are the same sample. */
  lemma InDegreesInjective(r1: Orientation, r2: Orientation)
    ensures InDegrees(r1) == InDegrees(r2) <==> r1 == r2
  {
    ToDegreesInjective(r1.alpha, r2.alpha);
    ToDegreesInjective(r1.beta, r2.beta);
    ToDegreesInjective(r1.gamma, r2.gamma);
  }

  /**
   * The visual tilt of one angle: degrees scaled by the sensitivity, i.e. 27 degrees of tilt
   * per half turn, with the sign of the angle.
   */
  function Tilt(rad: real): (t: real)
    ensures t * Pi == rad * 27.0
    ensures (t < 0.0 <==> rad < 0.0) && (t == 0.0 <==> rad == 0.0)
  {
    ToDegrees(rad) * TiltSensitivity
  }

  /** For angles within a half turn the tilt stays within the rotation interpolation's input range. */
  lemma TiltWithinRotationRange(rad: real)
    requires -Pi <= rad <= Pi
    ensures -27.0 <= Tilt(rad) <= 27.0
  {
  }

  /** The depth factor `1 + |beta| * 0.08` of beta in radians: at least 1, and 1 only when level. */
  function DepthFactor(betaRad: real): (d: real)
    ensures d >= 1.0
    ensures d == 1.0 <==> betaRad == 0.0
  {
    1.0 + Abs(betaRad) * DepthGain
  }

  /** Tilting forwards or backwards by the same amount gives the same depth. */
  lemma DepthFactorEven(betaRad: real)
    ensures DepthFactor(-betaRad) == DepthFactor(betaRad)
  {
  }

  /** The further from level, the larger the depth factor. */
  lemma DepthFactorMonotone(b1: real, b2: real)
    requires Abs(b1) <= Abs(b2)
    ensures DepthFactor(b1) <= DepthFactor(b2)
  {
  }

  /** At a right angle the factor is `1 + (Pi / 2) * 0.08`, about 1.126. */
  lemma DepthFactorAtRightAngle()
    ensures DepthFactor(Pi / 2.0) == 1.0 + Pi * 0.04
    ensures 1.1256 < DepthFactor(Pi / 2.0) < 1.1257
  {
  }

  /** A two-dimensional screen offset. */
  datatype Offset = Offset(x: real, y: real)

  /**
   * The accelerometer translation `(x * -15 * 0.05 * depth, y * 15 * 0.05 * depth)`: the panel
   * moves against x and with y, amplified by the depth factor.
   */
  function Translation(accelX: real, accelY: real, depth: real): (t: Offset)
    ensures depth > 0.0 ==> (t.x < 0.0 <==> accelX > 0.0) && (t.y > 0.0 <==> accelY > 0.0)
    ensures depth >= 1.0 ==> Abs(t.x) >= 0.75 * Abs(accelX) && Abs(t.y) >= 0.75 * Abs(accelY)
  {
    Offset(accelX * -AccelGain * AccelSensitivity * depth, accelY * AccelGain * AccelSensitivity * depth)
  }

  /** With a non-zero depth the reading is recovered from the translation. */
  lemma TranslationInverse(accelX: real, accelY: real, depth: real)
    requires depth != 0.0
    ensures Translation(accelX, accelY, depth).x / (-0.75 * depth) == accelX
    ensures Translation(accelX, accelY, depth).y / (0.75 * depth) == accelY
  {
    var t := Translation(accelX, accelY, depth);
    assert t.x == accelX * (-0.75 * depth);
    assert t.y == accelY * (0.75 * depth);
    CancelFactor(accelX, -0.75 * depth);
    CancelFactor(accelY, 0.75 * depth);
  }

  lemma CancelFactor(a: real, k: real)
    requires k != 0.0
    ensures (a * k) / k == a
  {
  }

  /**
   * The linear map from `[inLo, inHi]` onto `outLo..outHi` that the animation library applies
   * to a value inside its declared input range.
   */
  function Lerp(x: real, inLo: real, inHi: real, outLo: real, outHi: real): (r: real)
    requires inLo < inHi && inLo <= x <= inHi
    ensures x == inLo ==> r == outLo
    ensures x == inHi ==> r == outHi
    ensures outLo <= outHi ==> outLo <= r <= outHi
    ensures outHi <= outLo ==> outHi <= r <= outLo
    ensures (r - outLo) * (inHi - inLo) == (x - inLo) * (outHi - outLo)
  {
    var f := (x - inLo) / (inHi - inLo);
    FractionInUnit(x - inLo, inHi - inLo);
    outLo + f * (outHi - outLo)
  }

  lemma FractionInUnit(a: real, b: real)
    requires 0.0 <= a <= b && b > 0.0
    ensures 0.0 <= a / b <= 1.0
  {
  }

  /** Input range of all four interpolations. */
  const RangeLo: real := -30.0
  const RangeHi: real := 30.0

  /** The tilt interpolation maps -30..30 onto -30deg..30deg, so inside the range it is the identity. */
  function RotationInterpolation(v: real): (deg: real)
    requires RangeLo <= v <= RangeHi
    ensures deg == v
  {
    Lerp(v, RangeLo, RangeHi, -30.0, 30.0)
  }

  /** The parallax interpolation maps -30..30 onto 3..-3: a tenth of the translation, reversed. */
  function ParallaxInterpolation(v: real): (p: real)
    requires RangeLo <= v <= RangeHi
    ensures p == -v / 10.0
    ensures -3.0 <= p <= 3.0
  {
    Lerp(v, RangeLo, RangeHi, 3.0, -3.0)
  }

  /**
   * For beta within a half turn the depth factor stays below 1.26, so readings of magnitude up
   * to 30 keep the translation inside the parallax interpolation's input range.
   */
  lemma TranslationWithinParallaxRange(accelX: real, accelY: real, betaRad: real)
    requires -30.0 <= accelX <= 30.0 && -30.0 <= accelY <= 30.0 && -Pi <= betaRad <= Pi
    ensures RangeLo <= Translation(accelX, accelY, DepthFactor(betaRad)).x <= RangeHi
    ensures RangeLo <= Translation(accelX, accelY, DepthFactor(betaRad)).y <= RangeHi
  {
    var d := DepthFactor(betaRad);
    assert 1.0 <= d < 1.26;
    var t := Translation(accelX, accelY, d);
    assert t.x == -0.75 * (accelX * d);
    assert t.y == 0.75 * (accelY * d);
    ProductBound(accelX, d);
    ProductBound(accelY, d);
  }

  lemma ProductBound(a: real, d: real)
    requires -30.0 <= a <= 30.0 && 1.0 <= d < 1.26
    ensures -37.8 <= a * d <= 37.8
  {
    if a >= 0.0 {
      assert a * d <= a * 1.26;
    } else {
      assert a * d >= a * 1.26;
    }
  }

  /** The panel's transform values, as the sensor listeners leave them. */
  datatype Pose = Pose(depth: real, rotateX: real, rotateY: real, translation: Offset)

  /** Level, unrotated and untranslated, as the screen starts. */
  const InitialPose := Pose(1.0, 0.0, 0.0, Offset(0.0, 0.0))

  /** A depth of at least 1, as every sample keeps. */
  predicate PoseValid(p: Pose)
  {
    p.depth >= 1.0
  }

  /**
   * A motion sample (angles in radians) sets the tilt from beta and gamma and the depth from
   * beta; the translation, which only the accelerometer sets, is kept.
   */
  function PoseAfterMotion(p: Pose, rotation: Orientation): (q: Pose)
    ensures PoseValid(q) && q.translation == p.translation
    ensures q.rotateX * Pi == rotation.beta * 27.0 && q.rotateY * Pi == rotation.gamma * 27.0
    ensures q.depth == DepthFactor(rotation.beta)
    ensures q.depth == 1.0 <==> rotation.beta == 0.0
  {
    Pose(DepthFactor(rotation.beta), Tilt(rotation.beta), Tilt(rotation.gamma), p.translation)
  }

  /** An accelerometer sample sets only the translation, scaled by the current depth. */
  function PoseAfterAcceleration(p: Pose, accelX: real, accelY: real): (q: Pose)
    requires PoseValid(p)
    ensures PoseValid(q)
    ensures q.depth == p.depth && q.rotateX == p.rotateX && q.rotateY == p.rotateY
    ensures q.translation.x / (-0.75 * p.depth) == accelX && q.translation.y / (0.75 * p.depth) == accelY
  {
    TranslationInverse(accelX, accelY, p.depth);
    p.(translation := Translation(accelX, accelY, p.depth))
  }
}
