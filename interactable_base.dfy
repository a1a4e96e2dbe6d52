/**
 * `InteractableBase`: the part shared by everything the player can interact with. The
 * player's controller sets `IsHovered`; a change of value, and only a change, is passed on to
 * `OnHoveredChange`, which the subclasses override. The calls of `OnHoveredChange` are
 * recorded in `hoverChanges`, with their argument.
 */
module InteractableBases {

  /** `InteractableBase`. */
  class InteractableBase {
    var isHovered: bool
    var hoverChanges: seq<bool>

    /** A new interactable is not hovered and has seen no change. */
    constructor ()
      ensures !isHovered && hoverChanges == []
    {
      isHovered := false;
      hoverChanges := [];
    }

    /** The `IsHovered` getter: the value last stored. */
    function IsHovered(): bool
      reads this
    {
      isHovered
    }

    /** The `IsHovered` setter: the value is stored, and `OnHoveredChange` is called once with
        it exactly when it differs from the stored one. */
    method SetIsHovered(value: bool)
      modifies this
      ensures IsHovered() == value
      ensures hoverChanges == old(hoverChanges) + if old(isHovered) != value then [value] else []
    {
      if isHovered != value {
        isHovered := value;
        hoverChanges := hoverChanges + [isHovered];
      }
    }
  }

  /** Setting the same value over and over calls `OnHoveredChange` once at most: here, setting
      a new interactable hovered three times calls it once, with `true`. */
  method HoveredThreeTimes() returns (hovered: bool, changes: seq<bool>)
    ensures hovered && changes == [true]
  {
    var target := new InteractableBase();
    target.SetIsHovered(true);
    target.SetIsHovered(true);
    target.SetIsHovered(true);
    hovered := target.IsHovered();
    changes := target.hoverChanges;
  }
}
