/**
 * The page's mutable state and its entry points: the exercise handlers,
 * reset, exercise change and the pose-estimator callback. Each method
 * updates the fields in place as the page script does, and is proved to
 * agree with the corresponding transition of module Counter.
 */
module App {
  import opened Classify
  import opened Counter

  /** What one pose-estimator callback did. */
  datatype Outcome =
    | Skipped                  // no pose detected, or no handler for the selector
    | Rep(counted: bool)       // a squat or push-up frame; counted: a rep was counted (and announced)
    | PlankVerdict(good: bool) // a plank frame and its verdict

  class Session {
    var selectedExercise: string
    var repCount: nat
    var isSquatting: bool
    var isPushUp: bool
    var repCountedThisCycle: bool
    var lastRepTime: int

    /** The fields as a Counter.State value. */
    function Snapshot(): State
      reads this
    {
      State(selectedExercise, repCount, isSquatting, isPushUp, repCountedThisCycle, lastRepTime)
    }

    /** The state when the page loads: squats selected, nothing counted. */
    constructor ()
      ensures Snapshot() == Initial
    {
      selectedExercise := "squat";
      repCount := 0;
      isSquatting := false;
      isPushUp := false;
      repCountedThisCycle := false;
      lastRepTime := 0;
    }

    /** Zeroes the counter; the phase flags, the lock and the timestamp are kept. */
    method ResetReps()
      modifies this
      ensures Snapshot() == ResetNext(old(Snapshot()))
      ensures repCount == 0
    {
      repCount := 0;
    }

    /** Selects another exercise, then resets. */
    method ChangeExercise(kind: string)
      modifies this
      ensures Snapshot() == ChangeNext(old(Snapshot()), kind)
      ensures selectedExercise == kind && repCount == 0
    {
      selectedExercise := kind;
      ResetReps();
    }

    /** The squat handler on one frame; counted is true when a rep was counted. */
    method CheckSquat(kneeAngle: real, backAngle: real) returns (counted: bool)
      modifies this
      ensures Snapshot() == SquatNext(old(Snapshot()), kneeAngle, backAngle)
      ensures counted <==> repCount == old(repCount) + 1
    {
      var isProperKnee := ProperKnee(kneeAngle);
      var isBackStraight := BackStraight(backAngle);
      counted := false;
      if isProperKnee && isBackStraight {
        if !isSquatting {
          isSquatting := true;
        }
      } else {
        if isSquatting && !repCountedThisCycle {
          repCount := repCount + 1;
          counted := true;
          repCountedThisCycle := true;
        }
        isSquatting := false;
      }
      if Standing(kneeAngle) {
        repCountedThisCycle := false;
      }
    }

    /** The push-up handler on one frame taken at time now (ms). */
    method CheckPushUp(elbowAngle: real, shoulderY: real, hipY: real, now: int) returns (counted: bool)
      modifies this
      ensures Snapshot() == PushUpNext(old(Snapshot()), elbowAngle, shoulderY, hipY, now)
      ensures counted <==> repCount == old(repCount) + 1
      ensures counted ==> lastRepTime == now && now - old(lastRepTime) > RepCooldown
    {
      var isDown := IsDown(elbowAngle, shoulderY, hipY);
      counted := false;
      if isDown {
        if !isPushUp {
          isPushUp := true;
        }
      } else if isPushUp && now - lastRepTime > RepCooldown {
        repCount := repCount + 1;
        isPushUp := false;
        lastRepTime := now;
        counted := true;
      }
    }

    /**
     * The pose-estimator callback: skips a result without a pose, looks the
     * selector up in the handler table and runs the handler it finds.
     */
    method OnResults(r: Results) returns (outcome: Outcome)
      modifies this
      ensures Snapshot() == Dispatch(old(Snapshot()), r)
      ensures outcome.Skipped? <==> r.pose.None? || Handler(old(selectedExercise)).None?
      ensures outcome.Rep? <==>
                r.pose.Some? && Handler(old(selectedExercise)) in {Some(Squat), Some(PushUp)}
      ensures outcome.PlankVerdict? <==> r.pose.Some? && Handler(old(selectedExercise)) == Some(Plank)
      ensures outcome.Rep? ==> (outcome.counted <==> repCount == old(repCount) + 1)
      ensures outcome.PlankVerdict? ==>
                && r.pose.Some?
                && outcome.good == PlankOk(r.pose.value.bodyAngle, r.pose.value.shoulderY,
                                           r.pose.value.hipY, r.pose.value.ankleY)
    {
      match r.pose
      case None =>
        outcome := Skipped;
      case Some(p) =>
        match Handler(selectedExercise)
        case None =>
          outcome := Skipped;
        case Some(Squat) =>
          var counted := CheckSquat(p.kneeAngle, p.backAngle);
          outcome := Rep(counted);
        case Some(PushUp) =>
          var counted := CheckPushUp(p.elbowAngle, p.shoulderY, p.hipY, r.now);
          outcome := Rep(counted);
        case Some(Plank) =>
          outcome := PlankVerdict(PlankOk(p.bodyAngle, p.shoulderY, p.hipY, p.ankleY));
    }
  }
}
