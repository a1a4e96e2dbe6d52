/**
 * `SafePointTracker`: remembers the last position where the player stood still on the ground
 * for long enough, as a respawn point. Called once per frame after the ground check.
 */
module SafePointTrackers {

  /** A world-space position or velocity. */
  datatype Vector2 = Vector2(x: real, y: real)

  /** The largest upward speed that still counts as standing (`0.01f`). */
  const RestingSpeed: real := 0.01

  /** `SafePointTracker`. */
  class SafePointTracker {
    const minStableGroundTime: real
    var lastSafePosition: Vector2
    var hasSafePosition: bool
    var groundedStableTime: real

    /** The stable time never reaches the minimum between two calls: reaching it records the
        position and starts over. */
    predicate Valid()
      reads this
    {
      0.0 <= groundedStableTime && (minStableGroundTime > 0.0 ==> groundedStableTime < minStableGroundTime)
    }

    /** A new tracker has no safe position. */
    constructor (minStableGroundTime: real)
      ensures this.minStableGroundTime == minStableGroundTime
      ensures !hasSafePosition && groundedStableTime == 0.0 && lastSafePosition == Vector2(0.0, 0.0)
      ensures Valid()
    {
      this.minStableGroundTime := minStableGroundTime;
      lastSafePosition := Vector2(0.0, 0.0);
      hasSafePosition := false;
      groundedStableTime := 0.0;
    }

    /**
     * `Update`: a grounded frame that is not moving up adds its delta to the stable time; once
     * that reaches the minimum, the position is recorded as safe and the stable time starts
     * over. Any other frame starts the stable time over. The safe position changes only when
     * it is recorded.
     */
    method Update(isGrounded: bool, position: Vector2, velocity: Vector2, deltaTime: real)
      modifies this
      ensures old(Valid()) && deltaTime >= 0.0 ==> Valid()
      ensures var stable := isGrounded && velocity.y <= RestingSpeed;
        var t := old(groundedStableTime) + deltaTime;
        var record := stable && t >= minStableGroundTime;
        (record ==> lastSafePosition == position && hasSafePosition && groundedStableTime == 0.0) &&
        (stable && !record ==> groundedStableTime == t) &&
        (!stable ==> groundedStableTime == 0.0) &&
        (!record ==> lastSafePosition == old(lastSafePosition) && hasSafePosition == old(hasSafePosition))
    {
      if isGrounded && velocity.y <= RestingSpeed {
        groundedStableTime := groundedStableTime + deltaTime;
        if groundedStableTime >= minStableGroundTime {
          lastSafePosition := position;
          hasSafePosition := true;
          groundedStableTime := 0.0;
        }
      } else {
        groundedStableTime := 0.0;
      }
    }

    /** `Reset`: the saved point is forgotten and the stable time starts over; the last
        position itself is kept. */
    method Reset()
      modifies this
      ensures !hasSafePosition && groundedStableTime == 0.0 && lastSafePosition == old(lastSafePosition)
      ensures Valid()
    {
      hasSafePosition := false;
      groundedStableTime := 0.0;
    }
  }

  /**
   * With a positive minimum, a single frame shorter than the minimum never records a
   * position, however the player stands; standing still for frames adding up to the minimum
   * does. Shown for two frames.
   */
  method TwoStableFrames(minimum: real, p1: Vector2, p2: Vector2, dt1: real, dt2: real)
    returns (afterFirst: bool, afterSecond: bool, saved: Vector2)
    requires 0.0 < minimum && 0.0 <= dt1 < minimum && 0.0 <= dt2 && dt1 + dt2 >= minimum
    ensures !afterFirst && afterSecond && saved == p2
  {
    var tracker := new SafePointTracker(minimum);
    tracker.Update(true, p1, Vector2(0.0, 0.0), dt1);
    afterFirst := tracker.hasSafePosition;
    tracker.Update(true, p2, Vector2(0.0, 0.0), dt2);
    afterSecond := tracker.hasSafePosition;
    saved := tracker.lastSafePosition;
  }
}
