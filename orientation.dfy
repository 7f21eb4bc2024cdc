/**
 * Still-image orientation arithmetic of MainActivity: the display-rotation
 * table, the screen rotation in degrees, and the JPEG orientation sent with
 * every still capture.
 */
module Orientation {
  import opened Wrappers

  /** Degrees of each display rotation index ROTATION_0 .. ROTATION_270. */
  const RotationConversion: seq<int> := [0, 90, 180, 270]

  /** What the camera characteristics lookup yields: the sensor's mounting angle and the lens facing. */
  datatype Characteristics = Characteristics(sensorOrientation: int, frontFacing: bool)

  /** A display rotation index as the window manager reports it. */
  predicate IsRotationIndex(systemRotation: int) {
    0 <= systemRotation < |RotationConversion|
  }

  /** getScreenRotationDegrees: the table lookup for the current display rotation index. */
  function ScreenRotationDegrees(systemRotation: int): (degrees: int)
    requires IsRotationIndex(systemRotation)
    ensures degrees == 90 * systemRotation
    ensures degrees in {0, 90, 180, 270}
  {
    RotationConversion[systemRotation]
  }

  /**
   * Java's `%` on int: it truncates toward zero, so the remainder takes the sign
   * of `a`, agrees with the Euclidean `%` on non-negative `a`, and is odd in `a`.
   */
  function JavaRem(a: int, b: int): (r: int)
    requires b > 0
    ensures -b < r < b
    ensures a >= 0 ==> r == a % b
    ensures a < 0 ==> r <= 0 && r == -((-a) % b)
  {
    if a >= 0 then a % b else -((-a) % b)
  }

  /**
   * rotateImageForOrientation: 0 when the characteristics lookup fails;
   * otherwise the screen rotation is negated for a front lens and the result is
   * (sensor - adjusted + 360) % 360 with Java's remainder. The result is
   * less than a whole turn either way, and for a sensor angle in range it is
   * never negative.
   */
  function JpegOrientation(lookup: Option<Characteristics>, systemRotation: int): (r: int)
    requires IsRotationIndex(systemRotation)
    ensures lookup.None? ==> r == 0
    ensures -360 < r < 360
    ensures lookup.Some? && IsSensorAngle(lookup.value.sensorOrientation) ==> 0 <= r
  {
    match lookup
    case None => 0
    case Some(c) =>
      var degrees := ScreenRotationDegrees(systemRotation);
      var adjusted := if c.frontFacing then -degrees else degrees;
      JavaRem(c.sensorOrientation - adjusted + 360, 360)
  }

  /** A sensor mounting angle as the camera reports it: a whole turn or less. */
  predicate IsSensorAngle(sensor: int) {
    0 <= sensor < 360
  }

  /**
   * For a rear lens the JPEG orientation is the one angle in [0, 360) that,
   * added to the screen rotation, gives the sensor angle modulo a whole turn.
   */
  lemma JpegOrientationRear(sensor: int, systemRotation: int)
    requires IsSensorAngle(sensor) && IsRotationIndex(systemRotation)
    ensures var r := JpegOrientation(Some(Characteristics(sensor, false)), systemRotation);
      0 <= r < 360 && (r + 90 * systemRotation - sensor) % 360 == 0
  {
  }

  /**
   * For a front lens the screen rotation counts the other way: the JPEG
   * orientation is the angle in [0, 360) congruent to sensor plus screen degrees.
   */
  lemma JpegOrientationFront(sensor: int, systemRotation: int)
    requires IsSensorAngle(sensor) && IsRotationIndex(systemRotation)
    ensures var r := JpegOrientation(Some(Characteristics(sensor, true)), systemRotation);
      0 <= r < 360 && (r - 90 * systemRotation - sensor) % 360 == 0
  {
  }

  /** The two worked cases: sensor 90 with rear lens at ROTATION_0, and with front lens at ROTATION_90. */
  lemma JpegOrientationExamples()
    ensures JpegOrientation(Some(Characteristics(90, false)), 0) == 90
    ensures JpegOrientation(Some(Characteristics(90, true)), 1) == 180
  {
  }
}
