/**
 * `Switch`: an interactable that toggles a list of switchables and then raises `onSwitch`.
 * Hovering it tints its sprite yellow; the tint goes back to white when the hover ends. The
 * inherited `IsHovered` part is the `interactable` object; `switchCount` counts the
 * `onSwitch` invocations.
 */
module Switches {
  import opened Wrappers
  import opened InteractableBases
  import opened Switchables

  /** The sprite tints the switch uses. */
  datatype Color = White | Yellow

  /** `OnHoveredChange`: yellow while hovered, white otherwise. */
  function HoverColor(isHovered: bool): (c: Color)
    ensures c == Yellow <==> isHovered
  {
    if isHovered then Yellow else White
  }

  /** The number of times a switchable occurs in a list. */
  function Occurrences(list: seq<Switchable>, s: Switchable): nat {
    multiset(list)[s]
  }

  /** One more element of the list adds one occurrence of that element and none of any other. */
  lemma OccurrencesStep(list: seq<Switchable>, i: nat, s: Switchable)
    requires i < |list|
    ensures Occurrences(list[..i + 1], s) == Occurrences(list[..i], s) + if s == list[i] then 1 else 0
  {
    assert list[..i + 1] == list[..i] + [list[i]];
  }

  /** Toggles the switchables of a list in order, each once per occurrence. */
  method ToggleEach(list: seq<Switchable>)
    modifies set s | s in list
    ensures forall s :: s in list ==>
      s.isActive == Toggled(old(s.isActive), Occurrences(list, s)) &&
      s.changes == old(s.changes) + Toggles(old(s.isActive), Occurrences(list, s))
  {
    ghost var active0 := map s | s in list :: s.isActive;
    ghost var changes0 := map s | s in list :: s.changes;
    var i := 0;
    while i < |list|
      invariant 0 <= i <= |list|
      invariant forall s :: s in list ==> s in active0 && s in changes0
      invariant forall s :: s in list ==>
        s.isActive == Toggled(active0[s], Occurrences(list[..i], s)) &&
        s.changes == changes0[s] + Toggles(active0[s], Occurrences(list[..i], s))
    {
      ToggleAt(list, i, active0, changes0);
      i := i + 1;
    }
    assert list[..i] == list;
  }

  /** The toggle of element `i`: it adds one occurrence of that switchable and none of the
      others, starting from each switchable's state `active0` and changes `changes0`. */
  method ToggleAt(list: seq<Switchable>, i: nat, ghost active0: map<Switchable, bool>,
                  ghost changes0: map<Switchable, seq<bool>>)
    requires i < |list| && forall s :: s in list ==> s in active0 && s in changes0
    requires forall s :: s in list ==>
      s.isActive == Toggled(active0[s], Occurrences(list[..i], s)) &&
      s.changes == changes0[s] + Toggles(active0[s], Occurrences(list[..i], s))
    modifies list[i]
    ensures forall s :: s in list ==>
      s.isActive == Toggled(active0[s], Occurrences(list[..i + 1], s)) &&
      s.changes == changes0[s] + Toggles(active0[s], Occurrences(list[..i + 1], s))
  {
    var target := list[i];
    target.Toggle();
    forall s | s in list
      ensures s.isActive == Toggled(active0[s], Occurrences(list[..i + 1], s))
      ensures s.changes == changes0[s] + Toggles(active0[s], Occurrences(list[..i + 1], s))
    {
      OccurrencesStep(list, i, s);
      if s == target {
        TogglesStep(active0[s], Occurrences(list[..i], s));
      } else {
        assert s.isActive == old(s.isActive) && s.changes == old(s.changes);
      }
    }
  }

  /** What `Switch.OnValidate` does: nothing, log the empty-list warning, or throw on a
      null list. */
  datatype ValidateOutcome = Quiet | WarnsEmpty | NullReference

  /** `Switch`. `switchables` is `None` for a null list. */
  class Switch {
    const interactable: InteractableBase
    var switchables: Option<seq<Switchable>>
    var color: Color
    var switchCount: nat

    /** The switchables the list names. */
    function Targets(): set<Switchable>
      reads this
    {
      if switchables.None? then {} else set s | s in switchables.value
    }

    /** A switch with the given list, not hovered, with the renderer's default white tint. */
    constructor (switchables: Option<seq<Switchable>>)
      ensures this.switchables == switchables && color == White && switchCount == 0
      ensures fresh(interactable) && !interactable.isHovered && interactable.hoverChanges == []
    {
      interactable := new InteractableBase();
      this.switchables := switchables;
      color := White;
      switchCount := 0;
    }

    /** Setting `IsHovered` on the switch: a change of value re-tints the sprite for the new
        value; the same value leaves the tint as it is. */
    method SetIsHovered(value: bool)
      modifies this`color, interactable
      ensures interactable.isHovered == value
      ensures interactable.hoverChanges ==
        old(interactable.hoverChanges) + if old(interactable.isHovered) != value then [value] else []
      ensures color == if old(interactable.isHovered) != value then HoverColor(value) else old(color)
    {
      var changed := interactable.isHovered != value;
      interactable.SetIsHovered(value);
      if changed {
        color := HoverColor(value);
      }
    }

    /**
     * `Interact`: with a list, every switchable is toggled once per occurrence in it, so one
     * listed twice ends where it started after two events, and `onSwitch` fires once; with a
     * null list nothing happens.
     */
    method Interact()
      modifies this`switchCount, Targets()
      ensures switchCount == old(switchCount) + if switchables.Some? then 1 else 0
      ensures switchables.Some? ==> forall s :: s in switchables.value ==>
        s.isActive == Toggled(old(s.isActive), Occurrences(switchables.value, s)) &&
        s.changes == old(s.changes) + Toggles(old(s.isActive), Occurrences(switchables.value, s))
    {
      if switchables.None? {
        return;
      }
      ToggleEach(switchables.value);
      switchCount := switchCount + 1;
    }

    /**
     * `OnValidate` warns about an empty list, only outside play mode and only for a switch
     * in a scene (a prefab asset has no valid scene). There it reads `switchables.Count`
     * without a null check, so a null list throws a `NullReferenceException`.
     */
    function OnValidate(isPlaying: bool, sceneIsValid: bool): (r: ValidateOutcome)
      reads this
      ensures r == NullReference <==> !isPlaying && sceneIsValid && switchables.None?
      ensures r == WarnsEmpty <==> !isPlaying && sceneIsValid && switchables.Some? && |switchables.value| == 0
    {
      if isPlaying || !sceneIsValid then Quiet
      else if switchables.None? then NullReference
      else if |switchables.value| == 0 then WarnsEmpty
      else Quiet
    }
  }

  /** A switch that lists the same switchable twice, and another once, leaves the first as it
      was after two events and turns the second on. */
  method TwiceListedCancels() returns (first: bool, firstChanges: seq<bool>, second: bool, switched: nat)
    ensures !first && firstChanges == [true, false] && second && switched == 1
  {
    var a := new Switchable();
    var b := new Switchable();
    var sw := new Switch(Some([a, b, a]));
    assert multiset([a, b, a])[a] == 2 && multiset([a, b, a])[b] == 1;
    sw.Interact();
    first := a.isActive;
    firstChanges := a.changes;
    second := b.isActive;
    switched := sw.switchCount;
  }
}
