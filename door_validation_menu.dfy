/**
 * `DoorValidationMenu`: the "Validate Open Scenes" menu entry. Every scene of the hierarchy
 * that passes the entry's filter is validated, each error is logged, and an OK line is logged
 * when there is none.
 *
 * The filter as written skips invalid scenes and scenes without a path, but not scenes that
 * are in the hierarchy without being loaded; listing the doors of such a scene fails. The
 * model keeps the filter as written (`AdmitsAsWritten`), shows the scene it lets through, and
 * runs the entry with the filter that also skips unloaded scenes (`Admits`), as the play-mode
 * check does.
 */
module DoorValidationMenu {
  import opened Wrappers
  import opened Strings
  import opened Assets
  import opened DoorUtils
  import opened EditorWorld
  import opened DoorValidator

  /** The line logged when no open scene has an error. */
  const OkMessage: string := "Doors validation: OK (open scenes)."

  /** The filter as written: a valid scene with a non-blank path. */
  predicate AdmitsAsWritten(scene: Scene) {
    scene.valid && !IsBlank(scene.path)
  }

  /** An unloaded scene of the hierarchy gets through the filter as written, although its
      doors cannot be listed. */
  lemma AsWrittenAdmitsUnloadedScene()
    ensures var scene := Scene("Assets/Scenes/Level.unity", true, false);
      var contents: SceneContents := map["Assets/Scenes/Level.unity" := []];
      HierarchyValid([scene], contents) && AdmitsAsWritten(scene) && !CanListDoors(contents, scene)
  {
    var scene := Scene("Assets/Scenes/Level.unity", true, false);
    assert scene.path[0] == 'A' && !IsWhiteSpace('A');
  }

  /** The corrected filter: valid, loaded and with a non-blank path. */
  predicate Admits(scene: Scene) {
    scene.valid && scene.isLoaded && !IsBlank(scene.path)
  }

  /** Every scene of a consistent hierarchy the corrected filter admits can be listed, and the
      corrected filter admits exactly the loaded scenes the filter as written admits. */
  lemma AdmittedScenesAreListable(hierarchy: seq<Scene>, contents: SceneContents, i: nat)
    requires HierarchyValid(hierarchy, contents) && i < |hierarchy|
    ensures Admits(hierarchy[i]) ==> CanListDoors(contents, hierarchy[i])
    ensures Admits(hierarchy[i]) <==> AdmitsAsWritten(hierarchy[i]) && hierarchy[i].isLoaded
  {
  }

  /** The errors of one slot: none when the filter skips it. */
  function AdmittedErrors(scene: Scene, db: AssetDb, contents: SceneContents): seq<ValidationError>
    requires (scene.valid ==> scene.path in contents) && ScenesOpenable(db, contents)
  {
    if !Admits(scene) then []
    else Validation(Flatten(contents[scene.path]), scene.path, db, contents)
  }

  /** The errors of the admitted scenes among the first slots, in hierarchy order. */
  function MenuErrors(slots: seq<Scene>, db: AssetDb, contents: SceneContents): seq<ValidationError>
    requires HierarchyValid(slots, contents) && ScenesOpenable(db, contents)
  {
    if |slots| == 0 then []
    else MenuErrors(slots[..|slots| - 1], db, contents) + AdmittedErrors(slots[|slots| - 1], db, contents)
  }

  /** The errors of one more slot are those of the slots before it followed by its own. */
  lemma MenuErrorsStep(slots: seq<Scene>, i: nat, db: AssetDb, contents: SceneContents)
    requires i < |slots| && HierarchyValid(slots, contents) && ScenesOpenable(db, contents)
    ensures HierarchyValid(slots[..i], contents) && HierarchyValid(slots[..i + 1], contents)
    ensures slots[i].valid ==> slots[i].path in contents
    ensures MenuErrors(slots[..i + 1], db, contents) ==
      MenuErrors(slots[..i], db, contents) + AdmittedErrors(slots[i], db, contents)
  {
    assert slots[..i + 1][..i] == slots[..i];
    assert slots[..i + 1][i] == slots[i];
  }

  /** One iteration of the menu entry: an admitted scene is validated. */
  method ValidateAdmitted(w: World, scene: Scene) returns (errors: seq<ValidationError>)
    requires w.Valid() && ScenesOpenable(w.assets, w.sceneContents)
    requires scene.valid ==> scene.path in w.sceneContents
    modifies w`hierarchy
    ensures w.Valid() && w.hierarchy == old(w.hierarchy)
    ensures errors == AdmittedErrors(scene, w.assets, w.sceneContents)
  {
    if Admits(scene) {
      errors := ValidateScene(w, scene);
    } else {
      errors := [];
    }
  }

  /**
   * `ValidateOpenScenes` (menu entry): every error of every admitted scene is logged, and the
   * OK line exactly when there are none. The hierarchy is left as it was.
   */
  method ValidateOpenScenes(w: World) returns (logged: seq<ValidationError>, okLine: Option<string>)
    requires w.Valid() && ScenesOpenable(w.assets, w.sceneContents)
    modifies w`hierarchy
    ensures w.Valid() && w.hierarchy == old(w.hierarchy)
    ensures logged == MenuErrors(w.hierarchy, w.assets, w.sceneContents)
    ensures okLine.Some? <==> |logged| == 0
    ensures okLine.Some? ==> okLine.value == OkMessage
  {
    var anyErrors := false;
    logged := [];
    var i := 0;
    while i < |w.hierarchy|
      invariant 0 <= i <= |w.hierarchy|
      invariant w.Valid() && w.hierarchy == old(w.hierarchy)
      invariant logged == MenuErrors(w.hierarchy[..i], w.assets, w.sceneContents)
      invariant anyErrors <==> |logged| > 0
    {
      MenuErrorsStep(w.hierarchy, i, w.assets, w.sceneContents);
      var errors := ValidateAdmitted(w, w.hierarchy[i]);
      logged := logged + errors;
      anyErrors := anyErrors || |errors| > 0;
      i := i + 1;
    }
    assert w.hierarchy[..|w.hierarchy|] == w.hierarchy;
    okLine := if !anyErrors then Some(OkMessage) else None;
  }

  /** The menu reports OK exactly when every admitted scene validates clean. */
  lemma MenuCleanIff(slots: seq<Scene>, db: AssetDb, contents: SceneContents)
    requires HierarchyValid(slots, contents) && ScenesOpenable(db, contents)
    ensures |MenuErrors(slots, db, contents)| == 0 <==>
      forall i :: 0 <= i < |slots| && Admits(slots[i]) ==>
        Validation(Flatten(contents[slots[i].path]), slots[i].path, db, contents) == []
  {
    if |MenuErrors(slots, db, contents)| == 0 {
      CleanMenuAllClean(slots, db, contents);
    }
    if forall i :: 0 <= i < |slots| ==> AdmittedErrors(slots[i], db, contents) == [] {
      AllAdmittedCleanNoErrors(slots, db, contents);
    }
  }

  /** Without errors, no admitted scene has an error. */
  lemma {:induction false} CleanMenuAllClean(slots: seq<Scene>, db: AssetDb, contents: SceneContents)
    requires HierarchyValid(slots, contents) && ScenesOpenable(db, contents)
    requires MenuErrors(slots, db, contents) == []
    ensures forall i :: 0 <= i < |slots| ==> AdmittedErrors(slots[i], db, contents) == []
  {
    if |slots| > 0 {
      var prefix := slots[..|slots| - 1];
      var last := slots[|slots| - 1];
      assert HierarchyValid(prefix, contents);
      var before := MenuErrors(prefix, db, contents);
      var here := AdmittedErrors(last, db, contents);
      assert before + here == [];
      assert |before| + |here| == 0;
      CleanMenuAllClean(prefix, db, contents);
      forall i | 0 <= i < |slots|
        ensures AdmittedErrors(slots[i], db, contents) == []
      {
        if i < |prefix| {
          assert prefix[i] == slots[i];
        } else {
          assert slots[i] == last;
        }
      }
    }
  }

  /** When no admitted scene has an error, there is none. */
  lemma {:induction false} AllAdmittedCleanNoErrors(slots: seq<Scene>, db: AssetDb, contents: SceneContents)
    requires HierarchyValid(slots, contents) && ScenesOpenable(db, contents)
    requires forall i :: 0 <= i < |slots| ==> AdmittedErrors(slots[i], db, contents) == []
    ensures MenuErrors(slots, db, contents) == []
  {
    if |slots| > 0 {
      var prefix := slots[..|slots| - 1];
      assert HierarchyValid(prefix, contents);
      assert forall i :: 0 <= i < |prefix| ==> prefix[i] == slots[i];
      AllAdmittedCleanNoErrors(prefix, db, contents);
    }
  }
}
