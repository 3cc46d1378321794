/**
 * Properties of whole sessions (sequences of pose-estimator callbacks with
 * no exercise change in between): the squat angle hysteresis, the push-up
 * time debounce, and the callbacks that change nothing.
 */
module Properties {
  import opened Classify
  import opened Counter

  // ---- Frames that change nothing ------------------------------------------

  /** Callbacks that carry no pose leave the whole state as it was. */
  lemma {:induction false} NoPoseFramesChangeNothing(s: State, rs: seq<Results>)
    requires forall i :: 0 <= i < |rs| ==> rs[i].pose.None?
    ensures Run(s, rs) == s
    decreases |rs|
  {
    if rs != [] {
      NoPoseFramesChangeNothing(Dispatch(s, rs[0]), rs[1..]);
    }
  }

  /** With a selector that has no handler, or with the plank selected, no callback changes the state. */
  lemma {:induction false} StatelessSelectorChangesNothing(s: State, rs: seq<Results>)
    requires Handler(s.selected).None? || Handler(s.selected) == Some(Plank)
    ensures Run(s, rs) == s
    decreases |rs|
  {
    if rs != [] {
      StatelessSelectorChangesNothing(Dispatch(s, rs[0]), rs[1..]);
    }
  }

  // ---- Squat: angle hysteresis ---------------------------------------------

  /** The frame does not straighten the knee past the release angle (or has no pose). */
  predicate KneeBent(r: Results) {
    r.pose.None? || !Standing(r.pose.value.kneeAngle)
  }

  /** The frame is a squat frame in position. */
  predicate SquatIn(r: Results) {
    r.pose.Some? && InSquatPosition(r.pose.value.kneeAngle, r.pose.value.backAngle)
  }

  /** The reps still countable before the lock must be released: one if unlocked, none if locked. */
  function SquatBudget(s: State): nat {
    s.repCount + (if s.repCountedThisCycle then 0 else 1)
  }

  /**
   * While the knee never straightens past 150 degrees, the budget never
   * grows and a set lock stays set: a count spends the one unlocked rep.
   */
  lemma {:induction false} SquatBudgetNeverGrows(s: State, rs: seq<Results>)
    requires Handler(s.selected) == Some(Squat)
    requires forall i :: 0 <= i < |rs| ==> KneeBent(rs[i])
    ensures SquatBudget(Run(s, rs)) <= SquatBudget(s)
    ensures s.repCountedThisCycle ==> Run(s, rs).repCountedThisCycle
    decreases |rs|
  {
    if rs != [] {
      SquatBudgetNeverGrows(Dispatch(s, rs[0]), rs[1..]);
    }
  }

  /**
   * Hysteresis: frames that hover around the squat band without the knee
   * passing 150 degrees count at most one rep, and none once a rep has been
   * counted in this cycle (for instance knee angles 100, 105, 100, 105, 100).
   */
  lemma {:induction false} SquatHysteresis(s: State, rs: seq<Results>)
    requires Handler(s.selected) == Some(Squat)
    requires forall i :: 0 <= i < |rs| ==> KneeBent(rs[i])
    ensures Run(s, rs).repCount <= s.repCount + 1
    ensures s.repCountedThisCycle ==>
              Run(s, rs).repCount == s.repCount && Run(s, rs).repCountedThisCycle
  {
    SquatBudgetNeverGrows(s, rs);
  }

  /** No rep counted yet in this descent, lock open. */
  predicate Open(s: State, n: nat) {
    s.repCount == n && !s.repCountedThisCycle
  }

  /** In position with the lock open: leaving the position will count. */
  predicate Armed(s: State, n: nat) {
    Open(s, n) && s.isSquatting
  }

  /** The rep of this descent has been counted and the lock holds it. */
  predicate Done(s: State, n: nat) {
    s.repCount == n + 1 && s.repCountedThisCycle
  }

  /**
   * During a descent (knee never past 150 degrees) that reaches the squat
   * position at least once, the state ends either armed or done.
   */
  lemma {:induction false} DescentArms(s: State, n: nat, rs: seq<Results>)
    requires Handler(s.selected) == Some(Squat)
    requires forall i :: 0 <= i < |rs| ==> KneeBent(rs[i])
    requires Open(s, n) || Done(s, n)
    requires Armed(s, n) || Done(s, n) || exists j :: 0 <= j < |rs| && SquatIn(rs[j])
    ensures Armed(Run(s, rs), n) || Done(Run(s, rs), n)
    decreases |rs|
  {
    if rs != [] {
      var s' := Dispatch(s, rs[0]);
      if !(Armed(s, n) || Done(s, n)) && !SquatIn(rs[0]) {
        var j :| 0 <= j < |rs| && SquatIn(rs[j]);
        assert j > 0 && SquatIn(rs[1..][j - 1]);
      }
      DescentArms(s', n, rs[1..]);
    }
  }

  /**
   * One squat cycle counts exactly one rep: starting unlocked, any frames
   * with the knee at most 150 degrees among which at least one is in the
   * squat position, then one standing frame (knee above 150 degrees), raise
   * the count by exactly one, however long the body hovers in the band; the
   * cycle ends unlocked and out of position, ready for the next one.
   */
  lemma {:induction false} SquatCycleCountsOnce(s: State, descent: seq<Results>, stand: Results)
    requires Handler(s.selected) == Some(Squat)
    requires !s.repCountedThisCycle
    requires forall i :: 0 <= i < |descent| ==> KneeBent(descent[i])
    requires exists j :: 0 <= j < |descent| && SquatIn(descent[j])
    requires stand.pose.Some? && Standing(stand.pose.value.kneeAngle)
    ensures Run(s, descent + [stand]).repCount == s.repCount + 1
    ensures !Run(s, descent + [stand]).isSquatting && !Run(s, descent + [stand]).repCountedThisCycle
  {
    DescentArms(s, s.repCount, descent);
    RunAppend(s, descent, [stand]);
    RunCons(Run(s, descent), stand, []);
  }

  // ---- Push-up: time debounce ----------------------------------------------

  /** The frame is not a push-up down frame (or has no pose). */
  predicate NotDown(r: Results) {
    r.pose.None? || !IsDown(r.pose.value.elbowAngle, r.pose.value.shoulderY, r.pose.value.hipY)
  }

  /** The reps still countable inside the window starting at lo: none once a rep was counted in it. */
  function WindowBudget(s: State, lo: int): nat {
    s.repCount + (if s.lastRepTime >= lo then 0 else 1)
  }

  lemma {:induction false} WindowBudgetNeverGrows(s: State, rs: seq<Results>, lo: int)
    requires Handler(s.selected) == Some(PushUp)
    requires forall i :: 0 <= i < |rs| ==> lo <= rs[i].now <= lo + RepCooldown
    ensures WindowBudget(Run(s, rs), lo) <= WindowBudget(s, lo)
    decreases |rs|
  {
    if rs != [] {
      WindowBudgetNeverGrows(Dispatch(s, rs[0]), rs[1..], lo);
    }
  }

  /**
   * Cooldown: all callbacks that arrive within one cooldown period (a window
   * of RepCooldown ms) count at most one push-up. A second dip inside the
   * window is not dropped: its rep stays pending and is counted by the first
   * frame that is not down after the cooldown (PendingPushUpDeferred).
   */
  lemma {:induction false} PushUpCooldownWindow(s: State, rs: seq<Results>, lo: int)
    requires Handler(s.selected) == Some(PushUp)
    requires forall i :: 0 <= i < |rs| ==> lo <= rs[i].now <= lo + RepCooldown
    ensures Run(s, rs).repCount <= s.repCount + 1
  {
    WindowBudgetNeverGrows(s, rs, lo);
  }

  /**
   * Spacing over a whole push-up session: every counted rep moves the stored
   * timestamp more than RepCooldown ms forward, so n counted reps put the
   * last rep's time at least n * (RepCooldown + 1) ms after the start's.
   */
  lemma {:induction false} PushUpSpacing(s: State, rs: seq<Results>)
    requires Handler(s.selected) == Some(PushUp)
    ensures Run(s, rs).lastRepTime >= s.lastRepTime + (RepCooldown + 1) * (Run(s, rs).repCount - s.repCount)
    decreases |rs|
  {
    if rs != [] {
      PushUpSpacing(Dispatch(s, rs[0]), rs[1..]);
    }
  }

  /**
   * A pending push-up is deferred, not lost: frames that are not down and
   * arrive inside the cooldown leave the state unchanged, and the first
   * non-down frame after the cooldown then counts the rep.
   */
  lemma {:induction false} PendingPushUpDeferred(s: State, rs: seq<Results>, up: Results)
    requires Handler(s.selected) == Some(PushUp) && s.isPushUp
    requires forall i :: 0 <= i < |rs| ==> NotDown(rs[i]) && rs[i].now - s.lastRepTime <= RepCooldown
    ensures Run(s, rs) == s
    ensures up.pose.Some? && NotDown(up) && up.now - s.lastRepTime > RepCooldown ==>
              Run(s, rs + [up]) == s.(repCount := s.repCount + 1, isPushUp := false, lastRepTime := up.now)
    decreases |rs|
  {
    if rs != [] {
      PendingPushUpDeferred(s, rs[1..], up);
      assert rs + [up] == [rs[0]] + (rs[1..] + [up]);
      RunCons(s, rs[0], rs[1..] + [up]);
    }
    RunCons(s, up, []);
  }

  /**
   * Two dips whose up frames are more than the cooldown apart (and the first
   * more than the cooldown after the last counted rep) count twice.
   */
  lemma TwoSpacedDipsCountTwice(s: State, down1: Results, up1: Results, down2: Results, up2: Results)
    requires Handler(s.selected) == Some(PushUp)
    requires down1.pose.Some? && !NotDown(down1) && down2.pose.Some? && !NotDown(down2)
    requires up1.pose.Some? && NotDown(up1) && up2.pose.Some? && NotDown(up2)
    requires up1.now - s.lastRepTime > RepCooldown && up2.now - up1.now > RepCooldown
    ensures Run(s, [down1, up1, down2, up2]).repCount == s.repCount + 2
    ensures Run(s, [down1, up1, down2, up2]).lastRepTime == up2.now
  {
    var s1 := Dispatch(s, down1);
    var s2 := Dispatch(s1, up1);
    var s3 := Dispatch(s2, down2);
    RunCons(s, down1, [up1, down2, up2]);
    RunCons(s1, up1, [down2, up2]);
    RunCons(s2, down2, [up2]);
    RunCons(s3, up2, []);
  }

  // ---- Reset ---------------------------------------------------------------

  /**
   * Reset keeps the phase flags, so after switching to push-ups while a
   * push-up down phase is still pending, the first frame that is not down
   * (past the cooldown) counts a rep although no dip happened since.
   */
  lemma ChangeKeepsPendingPushUp(s: State, up: Results)
    requires s.isPushUp
    requires up.pose.Some? && NotDown(up) && up.now - s.lastRepTime > RepCooldown
    ensures Run(ChangeNext(s, Name(PushUp)), [up]).repCount == 1
  {
    RunCons(ChangeNext(s, Name(PushUp)), up, []);
  }
}
