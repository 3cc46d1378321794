/**
 * The repetition-counting state of the app and its per-frame transitions,
 * as pure functions on a value. These functions are the specification that
 * the imperative handlers of module App are proved against.
 */
module Counter {
  import opened Classify

  datatype Option<T> = None | Some(value: T)

  /** Minimum time, in milliseconds, between two counted push-ups. */
  const RepCooldown: int := 1000

  /** The app's module-level state: the selector and the five counter variables. */
  datatype State = State(
    selected: string,          // the exercise selector, as chosen in the drop-down
    repCount: nat,             // repetitions counted since the last reset
    isSquatting: bool,         // the previous squat frame was in position
    isPushUp: bool,            // a push-up "down" phase is pending
    repCountedThisCycle: bool, // squat lock: a rep was counted and the knee has not straightened since
    lastRepTime: int           // time (ms) of the last counted push-up
  )

  /** The state when the page loads. */
  const Initial: State := State("squat", 0, false, false, false, 0)

  /** The measurements the handlers take from one detected pose. */
  datatype Pose = Pose(
    kneeAngle: real,  // hip-knee-ankle
    backAngle: real,  // torso lean, shoulder against hip
    elbowAngle: real, // shoulder-elbow-wrist
    bodyAngle: real,  // shoulder-hip-ankle
    shoulderY: real,
    hipY: real,
    ankleY: real
  )

  /** One result delivered by the pose estimator: a pose, or none detected, and the clock reading. */
  datatype Results = Results(pose: Option<Pose>, now: int)

  datatype Exercise = Squat | PushUp | Plank

  /** The selector string under which each handler is registered. */
  function Name(e: Exercise): (n: string)
    ensures Handler(n) == Some(e)
  {
    match e
    case Squat => "squat"
    case PushUp => "pushup"
    case Plank => "plank"
  }

  /** The handler table lookup: a selector with no entry has no handler. */
  function Handler(selected: string): (h: Option<Exercise>)
    ensures h.None? <==> selected != "squat" && selected != "pushup" && selected != "plank"
  {
    if selected == "squat" then Some(Squat)
    else if selected == "pushup" then Some(PushUp)
    else if selected == "plank" then Some(Plank)
    else None
  }

  /** A selector has a handler exactly when it is the registered name of an exercise. */
  lemma HandlerInvertsName(selected: string, e: Exercise)
    ensures Handler(selected) == Some(e) <==> selected == Name(e)
  {
  }

  /**
   * One squat frame. The rep is counted on the frame that leaves the squat
   * position, unless the lock is set; the lock is released only by a knee
   * angle above 150 degrees. No other part of the state is touched.
   */
  function SquatNext(s: State, knee: real, back: real): (t: State)
    ensures t.isSquatting <==> InSquatPosition(knee, back)
    ensures s.repCount <= t.repCount <= s.repCount + 1
    ensures t.repCount == s.repCount + 1 <==>
              s.isSquatting && !s.repCountedThisCycle && !InSquatPosition(knee, back)
    ensures t.repCountedThisCycle <==>
              !Standing(knee) && (s.repCountedThisCycle || t.repCount > s.repCount)
    ensures t.selected == s.selected && t.isPushUp == s.isPushUp && t.lastRepTime == s.lastRepTime
  {
    var u :=
      if InSquatPosition(knee, back) then
        s.(isSquatting := true)
      else if s.isSquatting && !s.repCountedThisCycle then
        s.(repCount := s.repCount + 1, repCountedThisCycle := true, isSquatting := false)
      else
        s.(isSquatting := false);
    if Standing(knee) then u.(repCountedThisCycle := false) else u
  }

  /**
   * One push-up frame at time now. A down frame only arms the pending rep; a
   * later frame that is not down counts it, if more than RepCooldown ms have
   * passed since the last counted rep, and otherwise changes nothing, so the
   * pending rep waits for a later frame.
   */
  function PushUpNext(s: State, elbow: real, shoulderY: real, hipY: real, now: int): (t: State)
    ensures IsDown(elbow, shoulderY, hipY) ==> t == s.(isPushUp := true)
    ensures t.repCount > s.repCount <==>
              !IsDown(elbow, shoulderY, hipY) && s.isPushUp && now - s.lastRepTime > RepCooldown
    ensures t.repCount > s.repCount ==>
              t == s.(repCount := s.repCount + 1, isPushUp := false, lastRepTime := now)
    ensures !IsDown(elbow, shoulderY, hipY) && !(s.isPushUp && now - s.lastRepTime > RepCooldown) ==> t == s
  {
    if IsDown(elbow, shoulderY, hipY) then
      s.(isPushUp := true)
    else if s.isPushUp && now - s.lastRepTime > RepCooldown then
      s.(repCount := s.repCount + 1, isPushUp := false, lastRepTime := now)
    else
      s
  }

  /** Reset zeroes the counter and nothing else: phase flags, lock and timestamp survive. */
  function ResetNext(s: State): (t: State)
    ensures t.repCount == 0
    ensures t.selected == s.selected && t.isSquatting == s.isSquatting && t.isPushUp == s.isPushUp
    ensures t.repCountedThisCycle == s.repCountedThisCycle && t.lastRepTime == s.lastRepTime
  {
    s.(repCount := 0)
  }

  /** Switching exercise stores the new selector, then resets. */
  function ChangeNext(s: State, selected: string): (t: State)
    ensures t.selected == selected && t.repCount == 0
    ensures t.isSquatting == s.isSquatting && t.isPushUp == s.isPushUp
    ensures t.repCountedThisCycle == s.repCountedThisCycle && t.lastRepTime == s.lastRepTime
  {
    ResetNext(s.(selected := selected))
  }

  /**
   * One pose-estimator callback: a result without a pose, a selector with
   * no handler and the (stateless) plank handler leave the state as it was;
   * the squat and push-up handlers count at most one rep.
   */
  function Dispatch(s: State, r: Results): (t: State)
    ensures r.pose.None? ==> t == s
    ensures Handler(s.selected).None? || Handler(s.selected) == Some(Plank) ==> t == s
    ensures t.selected == s.selected
    ensures s.repCount <= t.repCount <= s.repCount + 1
  {
    match r.pose
    case None => s
    case Some(p) =>
      match Handler(s.selected)
      case None => s
      case Some(Squat) => SquatNext(s, p.kneeAngle, p.backAngle)
      case Some(PushUp) => PushUpNext(s, p.elbowAngle, p.shoulderY, p.hipY, r.now)
      case Some(Plank) => s
  }

  /**
   * A session: the callbacks rs delivered in order, with no exercise change
   * in between. The selector never changes and the count never decreases,
   * rising by at most one per callback.
   */
  function Run(s: State, rs: seq<Results>): (t: State)
    ensures t.selected == s.selected
    ensures s.repCount <= t.repCount <= s.repCount + |rs|
    decreases |rs|
  {
    if rs == [] then s else Run(Dispatch(s, rs[0]), rs[1..])
  }

  /** A session starting with callback r is r's transition followed by the rest. */
  lemma RunCons(s: State, r: Results, rs: seq<Results>)
    ensures Run(s, [r] + rs) == Run(Dispatch(s, r), rs)
    ensures Run(s, [r]) == Dispatch(s, r)
  {
  }

  /** Running two sessions back to back is running their concatenation. */
  lemma {:induction false} RunAppend(s: State, a: seq<Results>, b: seq<Results>)
    ensures Run(s, a + b) == Run(Run(s, a), b)
    decreases |a|
  {
    if a == [] {
      assert a + b == b;
    } else {
      assert (a + b)[0] == a[0];
      assert (a + b)[1..] == a[1..] + b;
      RunAppend(Dispatch(s, a[0]), a[1..], b);
    }
  }
}
