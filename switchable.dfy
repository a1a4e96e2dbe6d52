/**
 * `Switchable`: something a switch turns on and off. Only a change of `IsActive` raises
 * `onChange`; its invocations are recorded in `changes`, with their argument.
 */
module Switchables {

  /** The `onChange` arguments of `n` toggles from `start`: the k-th toggle sets the value
      to `start` flipped k times. */
  function Toggles(start: bool, n: nat): (r: seq<bool>)
    ensures |r| == n
    ensures forall k :: 0 <= k < n ==> r[k] == (start != (k % 2 == 0))
  {
    if n == 0 then [] else Toggles(start, n - 1) + [start != ((n - 1) % 2 == 0)]
  }

  /** The state after `n` toggles from `start`: back to `start` after an even number, flipped
      after an odd one. */
  function Toggled(start: bool, n: nat): (r: bool)
    ensures n % 2 == 0 ==> r == start
    ensures n % 2 == 1 ==> r == !start
  {
    start != (n % 2 == 1)
  }

  /** One more toggle flips the state once more and records the new state. */
  lemma TogglesStep(start: bool, n: nat)
    ensures Toggled(start, n + 1) == !Toggled(start, n)
    ensures Toggles(start, n + 1) == Toggles(start, n) + [Toggled(start, n + 1)]
  {
  }

  /** `Switchable`. */
  class Switchable {
    var isActive: bool
    var changes: seq<bool>

    /** A switchable starts inactive. */
    constructor ()
      ensures !isActive && changes == []
    {
      isActive := false;
      changes := [];
    }

    /** The `IsActive` setter: the value is stored, and `onChange` fires once with it exactly
        when it differs from the stored one. */
    method SetIsActive(value: bool)
      modifies this
      ensures isActive == value
      ensures changes == old(changes) + if old(isActive) != value then [value] else []
    {
      if isActive != value {
        isActive := value;
        changes := changes + [isActive];
      }
    }

    /** `Toggle`: the state flips and `onChange` fires once, with the new state. */
    method Toggle()
      modifies this
      ensures isActive == !old(isActive)
      ensures changes == old(changes) + [isActive]
    {
      SetIsActive(!isActive);
    }
  }

  /** Toggling a new switchable twice makes it active, then inactive again: two events, and
      the original state back. */
  method ToggleTwice() returns (active: bool, changes: seq<bool>)
    ensures !active && changes == [true, false]
  {
    var s := new Switchable();
    s.Toggle();
    s.Toggle();
    active := s.isActive;
    changes := s.changes;
  }
}
