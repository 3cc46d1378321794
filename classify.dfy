/**
 * Per-frame pose classification: the threshold predicates that the three
 * exercise handlers evaluate on the angles and vertical coordinates of one
 * pose frame. Angles are in degrees and y grows downwards (normalised image
 * coordinates), exactly as the pose estimator reports them; the angles
 * themselves are inputs here (their trigonometry is not modelled).
 */
module Classify {

  // ---- Squat ---------------------------------------------------------------

  /** The knee (hip-knee-ankle) angle lies in the accepted squat band. */
  predicate ProperKnee(knee: real) {
    knee >= 80.0 && knee <= 120.0
  }

  /** The torso-lean angle is large enough for the back to count as straight. */
  predicate BackStraight(back: real) {
    back >= 150.0
  }

  /**
   * A squat frame is "in position" when both criteria hold. The band lies
   * below the release angle, so a frame in position never releases the lock.
   */
  predicate InSquatPosition(knee: real, back: real)
    ensures InSquatPosition(knee, back) ==> !Standing(knee)
  {
    ProperKnee(knee) && BackStraight(back)
  }

  /** Knee angle past which the squat lock is released (the body is standing). */
  predicate Standing(knee: real) {
    knee > 150.0
  }

  // ---- Push-up -------------------------------------------------------------

  /**
   * The "down" pose of a push-up: the elbow is bent below 90 degrees and the
   * shoulder is more than 0.1 below the hip.
   */
  predicate IsDown(elbow: real, shoulderY: real, hipY: real) {
    elbow < 90.0 && shoulderY - hipY > 0.1
  }

  // ---- Plank ---------------------------------------------------------------

  function Abs(x: real): (r: real)
    ensures r >= 0.0 && (r == x || r == -x)
  {
    if x < 0.0 then -x else x
  }

  /** The shoulder-hip-ankle angle is close to a straight line. */
  predicate GoodBodyAngle(angle: real) {
    angle > 160.0 && angle < 190.0
  }

  /** Shoulder and hip, and hip and ankle, are at nearly the same height. */
  predicate YDiffsOkay(shoulderY: real, hipY: real, ankleY: real) {
    Abs(shoulderY - hipY) < 0.1 && Abs(hipY - ankleY) < 0.1
  }

  /** The shoulder is not above the hip (rules out an upright posture). */
  predicate NotStanding(shoulderY: real, hipY: real) {
    shoulderY >= hipY
  }

  /**
   * The plank verdict: good when the body is straight, level and not upright.
   * Stated without absolute values: the shoulder sits less than 0.1 below the
   * hip and never above it, and the ankle is less than 0.1 from the hip. An
   * upright body is never a good plank, whatever its angle.
   */
  function PlankOk(angle: real, shoulderY: real, hipY: real, ankleY: real): (good: bool)
    ensures good <==>
              && 160.0 < angle < 190.0
              && 0.0 <= shoulderY - hipY < 0.1
              && -0.1 < hipY - ankleY < 0.1
    ensures shoulderY < hipY ==> !good
  {
    GoodBodyAngle(angle) && YDiffsOkay(shoulderY, hipY, ankleY) && NotStanding(shoulderY, hipY)
  }
}
