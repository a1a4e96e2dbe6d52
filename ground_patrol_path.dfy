/**
 * `GroundPatrolPath`: the waypoints a patrolling character walks between. The current target
 * moves one waypoint at a time in the current direction and turns back at either end, so
 * the character walks the path back and forth (ping-pong).
 */
module GroundPatrolPaths {
  import opened Wrappers

  /** `PatrolPathDirection`. */
  datatype Direction = Increasing | Decreasing

  /** `PatrolPoint`: a world-space position and the delay to wait there. */
  datatype PatrolPoint = PatrolPoint(x: real, y: real, delay: real)

  /** `GetIncrement`. */
  function Increment(d: Direction): int {
    if d == Increasing then 1 else -1
  }

  /** The other direction. */
  function Flip(d: Direction): Direction {
    if d == Increasing then Decreasing else Increasing
  }

  /**
   * The indices from which `NextTarget` returns: with two points or more, the step in one
   * direction or the other lands inside the list, which holds from -1 to `count`. Further
   * out, `NextTarget` would turn back and forth without end.
   */
  predicate CanAdvance(index: int, count: nat) {
    count < 2 || -1 <= index <= count
  }

  /** Outside those indices neither direction lands inside the list, and two turns give back
      the direction `NextTarget` started with: it would call itself forever. */
  lemma TurnsForeverOutside(index: int, d: Direction, count: nat)
    requires !CanAdvance(index, count)
    ensures !(0 <= index + Increment(d) < count) && !(0 <= index + Increment(Flip(d)) < count)
    ensures Flip(Flip(d)) == d
  {
  }

  /** The target and direction after one `NextTarget`. */
  function Advance(index: int, d: Direction, count: nat): (r: (int, Direction))
    requires CanAdvance(index, count)
    ensures count < 2 ==> r == (index, d)
    ensures count >= 2 ==> 0 <= r.0 < count && (r.0 == index + 1 || r.0 == index - 1)
    ensures count >= 2 ==> (r.1 == d <==> 0 <= index + Increment(d) < count)
  {
    if count < 2 then (index, d)
    else
      var next := index + Increment(d);
      if next >= count || next < 0 then (index + Increment(Flip(d)), Flip(d))
      else (next, d)
  }

  /**
   * The step without the endless recursion: a target further out than one step past an end
   * is first taken back to just past the nearer end, so the step turns there and lands on
   * that end's point, walking back into the list. Every other target steps as written.
   */
  function AdvanceCorrected(index: int, d: Direction, count: nat): (r: (int, Direction))
    ensures count < 2 ==> r == (index, d)
    ensures count >= 2 ==> 0 <= r.0 < count
    ensures CanAdvance(index, count) ==> r == Advance(index, d, count)
    ensures !CanAdvance(index, count) && index < 0 ==> r == (0, Increasing)
    ensures !CanAdvance(index, count) && index >= 0 ==> r == (count - 1, Decreasing)
  {
    if CanAdvance(index, count) then Advance(index, d, count)
    else Advance(if index < 0 then -1 else count, d, count)
  }

  /** `steps` calls of `NextTarget`. */
  function Iterate(index: int, d: Direction, count: nat, steps: nat): (int, Direction)
    requires 2 <= count && 0 <= index < count
    decreases steps
  {
    if steps == 0 then (index, d)
    else
      var r := Advance(index, d, count);
      Iterate(r.0, r.1, count, steps - 1)
  }

  /**
   * The walk is a ping-pong: starting at the first point and going up, after k steps the
   * target is point k on the way up (k < count) and point 2(count-1) - k on the way back.
   */
  lemma {:induction false} PingPong(count: nat, k: nat)
    requires count >= 2 && k <= 2 * (count - 1)
    ensures Iterate(0, Increasing, count, k) ==
      if k <= count - 1 then (k, Increasing) else (2 * (count - 1) - k, Decreasing)
  {
    if k > 0 {
      PingPong(count, k - 1);
      IterateLast(0, Increasing, count, k - 1);
    }
  }

  /** One more step is one more `Advance` at the end. */
  lemma {:induction false} IterateLast(index: int, d: Direction, count: nat, steps: nat)
    requires 2 <= count && 0 <= index < count
    ensures var r := Iterate(index, d, count, steps);
      0 <= r.0 < count && Iterate(index, d, count, steps + 1) == Advance(r.0, r.1, count)
    decreases steps
  {
    if steps > 0 {
      var r := Advance(index, d, count);
      IterateLast(r.0, r.1, count, steps - 1);
    }
  }

  /** `GroundPatrolPath`. */
  class GroundPatrolPath {
    var startIndex: int
    var direction: Direction
    var points: seq<PatrolPoint>
    var currentTargetIndex: int
    var currentDirection: Direction

    /** The configured fields; the current target is set by `ResetPoint` at `Awake`. */
    constructor (startIndex: int, direction: Direction, points: seq<PatrolPoint>)
      ensures this.startIndex == startIndex && this.direction == direction && this.points == points
      ensures currentTargetIndex == 0 && currentDirection == Increasing
    {
      this.startIndex := startIndex;
      this.direction := direction;
      this.points := points;
      currentTargetIndex := 0;
      currentDirection := Increasing;
    }

    /** `GetTargetPoint`: the waypoint at the current target index. An index outside the
        list (an empty path, or a list cut short) throws an `ArgumentOutOfRangeException`,
        here `None`. */
    function GetTargetPoint(): (p: Option<PatrolPoint>)
      reads this
      ensures p.None? <==> !(0 <= currentTargetIndex < |points|)
      ensures p.Some? ==> p.value in points && p.value == points[currentTargetIndex]
    {
      if 0 <= currentTargetIndex < |points| then Some(points[currentTargetIndex]) else None
    }

    /**
     * `NextTarget`: nothing with fewer than two points; otherwise one step in the current
     * direction, or, when that leaves the list, a turn and one step the other way. The
     * target ends inside the list, next to where it was.
     */
    method NextTarget()
      requires CanAdvance(currentTargetIndex, |points|)
      modifies this`currentTargetIndex, this`currentDirection
      ensures (currentTargetIndex, currentDirection) ==
        Advance(old(currentTargetIndex), old(currentDirection), |points|)
      decreases if 0 <= currentTargetIndex + Increment(currentDirection) < |points| then 0 else 1
    {
      if |points| < 2 {
        return;
      }
      var increment := Increment(currentDirection);
      var nextIndex := currentTargetIndex + increment;
      if nextIndex >= |points| || nextIndex < 0 {
        currentDirection := Flip(currentDirection);
        NextTarget();
        return;
      }
      currentTargetIndex := nextIndex;
    }

    /** `ResetPoint` (run at `Awake`): back to the configured start and direction. */
    method ResetPoint()
      modifies this`currentTargetIndex, this`currentDirection
      ensures currentTargetIndex == startIndex && currentDirection == direction
    {
      currentTargetIndex := startIndex;
      currentDirection := direction;
    }

    /**
     * `OnValidate`: the start index is clamped into the list, or set to 0 when there are no
     * points; a start inside the list is kept. Afterwards a reset target can be advanced,
     * and is a waypoint whenever there is one.
     */
    method OnValidate()
      modifies this`startIndex
      ensures |points| == 0 ==> startIndex == 0
      ensures |points| > 0 ==> 0 <= startIndex < |points|
      ensures 0 <= old(startIndex) < |points| ==> startIndex == old(startIndex)
      ensures CanAdvance(startIndex, |points|)
    {
      if |points| == 0 {
        startIndex := 0;
        return;
      }
      startIndex := if startIndex < 0 then 0 else if startIndex > |points| - 1 then |points| - 1 else startIndex;
    }
  }
}
