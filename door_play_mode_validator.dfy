/**
 * `DoorPlayModeValidator`: right before the editor leaves edit mode for play mode, the open and
 * loaded scenes are validated, and entering play mode is cancelled when there is an error. The
 * check can be switched off from a menu; the switch is stored in the editor preferences and
 * defaults to on.
 */
module DoorPlayModeValidator {
  import opened Assets
  import opened DoorUtils
  import opened EditorWorld
  import opened DoorValidator

  /** The preference key of the switch. */
  const EnabledKey: string := "Doors.ValidationOnPlay.Enabled"

  /** `PlayModeStateChange`. */
  datatype PlayModeStateChange = EnteredEditMode | ExitingEditMode | EnteredPlayMode | ExitingPlayMode

  /** `EditorPrefs.GetBool(EnabledKey, true)`: the stored switch, on when nothing is stored. */
  function IsEnabled(prefs: map<string, bool>): (on: bool)
    ensures EnabledKey !in prefs ==> on
    ensures EnabledKey in prefs ==> on == prefs[EnabledKey]
  {
    if EnabledKey in prefs then prefs[EnabledKey] else true
  }

  /** The errors of one hierarchy slot: none for an invalid or unloaded scene. */
  function SlotErrors(scene: Scene, db: AssetDb, contents: SceneContents): seq<ValidationError>
    requires (scene.valid ==> scene.path in contents) && ScenesOpenable(db, contents)
  {
    if !scene.valid || !scene.isLoaded then []
    else Validation(Flatten(contents[scene.path]), scene.path, db, contents)
  }

  /** The errors of the first slots of the hierarchy, skipping invalid and unloaded scenes. */
  function OpenScenesErrors(slots: seq<Scene>, db: AssetDb, contents: SceneContents): seq<ValidationError>
    requires HierarchyValid(slots, contents) && ScenesOpenable(db, contents)
  {
    if |slots| == 0 then []
    else OpenScenesErrors(slots[..|slots| - 1], db, contents) + SlotErrors(slots[|slots| - 1], db, contents)
  }

  /** The errors of one more slot are those of the slots before it followed by its own. */
  lemma OpenScenesErrorsStep(slots: seq<Scene>, i: nat, db: AssetDb, contents: SceneContents)
    requires i < |slots| && HierarchyValid(slots, contents) && ScenesOpenable(db, contents)
    ensures HierarchyValid(slots[..i], contents) && HierarchyValid(slots[..i + 1], contents)
    ensures slots[i].valid ==> slots[i].path in contents
    ensures OpenScenesErrors(slots[..i + 1], db, contents) ==
      OpenScenesErrors(slots[..i], db, contents) + SlotErrors(slots[i], db, contents)
  {
    assert slots[..i + 1][..i] == slots[..i];
    assert slots[..i + 1][i] == slots[i];
  }

  /** One iteration of `ValidateOpenScenes`: a valid, loaded scene is validated. */
  method ValidateSlot(w: World, scene: Scene) returns (errors: seq<ValidationError>)
    requires w.Valid() && ScenesOpenable(w.assets, w.sceneContents)
    requires scene.valid ==> scene.path in w.sceneContents
    modifies w`hierarchy
    ensures w.Valid() && w.hierarchy == old(w.hierarchy)
    ensures errors == SlotErrors(scene, w.assets, w.sceneContents)
  {
    if scene.valid && scene.isLoaded {
      errors := ValidateScene(w, scene);
    } else {
      errors := [];
    }
  }

  /** `ValidateOpenScenes`: the errors of every valid, loaded scene, in hierarchy order. */
  method ValidateOpenScenes(w: World) returns (all: seq<ValidationError>)
    requires w.Valid() && ScenesOpenable(w.assets, w.sceneContents)
    modifies w`hierarchy
    ensures w.Valid() && w.hierarchy == old(w.hierarchy)
    ensures all == OpenScenesErrors(w.hierarchy, w.assets, w.sceneContents)
  {
    all := [];
    var i := 0;
    while i < |w.hierarchy|
      invariant 0 <= i <= |w.hierarchy|
      invariant w.Valid() && w.hierarchy == old(w.hierarchy)
      invariant all == OpenScenesErrors(w.hierarchy[..i], w.assets, w.sceneContents)
    {
      OpenScenesErrorsStep(w.hierarchy, i, w.assets, w.sceneContents);
      var errors := ValidateSlot(w, w.hierarchy[i]);
      all := all + errors;
      i := i + 1;
    }
    assert w.hierarchy[..|w.hierarchy|] == w.hierarchy;
  }

  /** Opening play mode is blocked exactly when some valid, loaded scene has an error. */
  lemma OpenScenesCleanIff(slots: seq<Scene>, db: AssetDb, contents: SceneContents)
    requires HierarchyValid(slots, contents) && ScenesOpenable(db, contents)
    ensures |OpenScenesErrors(slots, db, contents)| == 0 <==>
      forall i :: 0 <= i < |slots| && slots[i].valid && slots[i].isLoaded ==>
        Validation(Flatten(contents[slots[i].path]), slots[i].path, db, contents) == []
  {
    if |OpenScenesErrors(slots, db, contents)| == 0 {
      CleanSlotsAllClean(slots, db, contents);
    }
    if forall i :: 0 <= i < |slots| ==> SlotErrors(slots[i], db, contents) == [] {
      AllSlotsCleanNoErrors(slots, db, contents);
    }
  }

  /** Without errors, no slot has an error. */
  lemma {:induction false} CleanSlotsAllClean(slots: seq<Scene>, db: AssetDb, contents: SceneContents)
    requires HierarchyValid(slots, contents) && ScenesOpenable(db, contents)
    requires OpenScenesErrors(slots, db, contents) == []
    ensures forall i :: 0 <= i < |slots| ==> SlotErrors(slots[i], db, contents) == []
  {
    if |slots| > 0 {
      var prefix := slots[..|slots| - 1];
      var last := slots[|slots| - 1];
      assert HierarchyValid(prefix, contents);
      var before := OpenScenesErrors(prefix, db, contents);
      var here := SlotErrors(last, db, contents);
      assert before + here == [];
      assert |before| + |here| == 0;
      CleanSlotsAllClean(prefix, db, contents);
      forall i | 0 <= i < |slots|
        ensures SlotErrors(slots[i], db, contents) == []
      {
        if i < |prefix| {
          assert prefix[i] == slots[i];
        } else {
          assert slots[i] == last;
        }
      }
    }
  }

  /** When no slot has an error, there is none. */
  lemma {:induction false} AllSlotsCleanNoErrors(slots: seq<Scene>, db: AssetDb, contents: SceneContents)
    requires HierarchyValid(slots, contents) && ScenesOpenable(db, contents)
    requires forall i :: 0 <= i < |slots| ==> SlotErrors(slots[i], db, contents) == []
    ensures OpenScenesErrors(slots, db, contents) == []
  {
    if |slots| > 0 {
      var prefix := slots[..|slots| - 1];
      assert HierarchyValid(prefix, contents);
      assert forall i :: 0 <= i < |prefix| ==> prefix[i] == slots[i];
      AllSlotsCleanNoErrors(prefix, db, contents);
    }
  }

  /** The editor state the validator reads and writes: the preferences and the menu tick. */
  class PlayModeGate {
    var prefs: map<string, bool>
    var menuChecked: bool

    constructor (prefs: map<string, bool>)
      ensures this.prefs == prefs && !menuChecked
    {
      this.prefs := prefs;
      menuChecked := false;
    }

    /** `ToggleEnabled`: the switch flips, is stored, and the menu tick shows the new value. */
    method ToggleEnabled()
      modifies this
      ensures IsEnabled(prefs) == !old(IsEnabled(prefs))
      ensures prefs == old(prefs)[EnabledKey := !old(IsEnabled(prefs))]
      ensures menuChecked == IsEnabled(prefs)
    {
      var enabled := !IsEnabled(prefs);
      prefs := prefs[EnabledKey := enabled];
      menuChecked := enabled;
    }

    /** `ToggleEnabledValidate`: the menu tick is brought in line with the switch; the item is always enabled. */
    method ToggleEnabledValidate() returns (itemEnabled: bool)
      modifies this`menuChecked
      ensures menuChecked == IsEnabled(prefs) && itemEnabled
    {
      menuChecked := IsEnabled(prefs);
      itemEnabled := true;
    }

    /**
     * `OnPlayModeStateChanged`: only when the switch is on and the editor is exiting edit mode
     * are the open scenes validated; their errors are logged and entering play mode is
     * cancelled exactly when there is at least one.
     */
    method OnPlayModeStateChanged(w: World, state: PlayModeStateChange)
      returns (cancelPlay: bool, logged: seq<ValidationError>)
      requires w.Valid() && ScenesOpenable(w.assets, w.sceneContents)
      modifies w`hierarchy
      ensures w.Valid() && w.hierarchy == old(w.hierarchy)
      ensures var checked := IsEnabled(prefs) && state == ExitingEditMode;
        logged == (if checked then OpenScenesErrors(w.hierarchy, w.assets, w.sceneContents) else []) &&
        (cancelPlay <==> |logged| > 0)
    {
      if !IsEnabled(prefs) {
        return false, [];
      }
      if state != ExitingEditMode {
        return false, [];
      }
      var errors := ValidateOpenScenes(w);
      if |errors| == 0 {
        return false, [];
      }
      logged := errors;
      cancelPlay := true;
    }
  }
}
