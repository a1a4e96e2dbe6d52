/**
 * The editor state the door tools read and change, and `DoorEditorUtils`.
 *
 * `World` gathers the engine services as plain state: the asset database, the stored contents
 * of every scene asset, the scenes listed in the hierarchy (`SceneManager.GetSceneAt`), the
 * scenes marked dirty, the prefab assets (`FindAssets("t:Prefab")` and their contents), the
 * prefabs saved and the prefab contents currently loaded, and the scene assets
 * (`FindAssets("t:Scene")`). Opening a scene additively appends a loaded slot to the hierarchy;
 * closing it with `removeScene` drops that slot again.
 */
module EditorWorld {
  import opened Wrappers
  import opened Strings
  import opened Assets
  import opened Doors
  import opened DoorUtils

  /** `DoorEditorUtils.GetSceneGuid`: empty for a blank path, else the path's GUID. */
  function GetSceneGuid(db: AssetDb, scenePath: Path): (guid: Guid)
    ensures IsBlank(scenePath) ==> guid == ""
    ensures !IsBlank(scenePath) ==> guid == db.AssetPathToGuid(scenePath)
  {
    if IsBlank(scenePath) then "" else db.AssetPathToGuid(scenePath)
  }

  /** Index of the first hierarchy slot holding `path`. */
  function FirstSlot(hierarchy: seq<Scene>, path: Path): (k: Option<nat>)
    ensures k.Some? ==> k.value < |hierarchy| && hierarchy[k.value].path == path
    ensures k.Some? ==> forall j :: 0 <= j < k.value ==> hierarchy[j].path != path
    ensures k.None? ==> forall j :: 0 <= j < |hierarchy| ==> hierarchy[j].path != path
  {
    if |hierarchy| == 0 then None
    else if hierarchy[0].path == path then Some(0)
    else match FirstSlot(hierarchy[1..], path)
      case None => None
      case Some(k) => Some(k + 1)
  }

  /** A slot of the hierarchy is a valid scene only when its asset exists. */
  predicate HierarchyValid(hierarchy: seq<Scene>, contents: SceneContents) {
    forall i :: 0 <= i < |hierarchy| && hierarchy[i].valid ==> hierarchy[i].path in contents
  }

  class World {
    var assets: AssetDb
    var sceneContents: SceneContents
    var hierarchy: seq<Scene>
    var dirty: set<Path>
    var prefabGuids: seq<Guid>
    var prefabContents: map<Path, seq<Door>>
    var savedPrefabs: seq<Path>
    var loadedPrefabs: seq<Path>
    var sceneGuids: seq<Guid>

    ghost predicate Valid()
      reads this
    {
      HierarchyValid(hierarchy, sceneContents)
    }

    constructor (assets: AssetDb, sceneContents: SceneContents, hierarchy: seq<Scene>,
                 prefabGuids: seq<Guid>, prefabContents: map<Path, seq<Door>>, sceneGuids: seq<Guid>)
      requires HierarchyValid(hierarchy, sceneContents)
      ensures Valid()
      ensures this.assets == assets && this.sceneContents == sceneContents && this.hierarchy == hierarchy
      ensures this.prefabGuids == prefabGuids && this.prefabContents == prefabContents
      ensures this.sceneGuids == sceneGuids
      ensures dirty == {} && savedPrefabs == [] && loadedPrefabs == []
    {
      this.assets := assets;
      this.sceneContents := sceneContents;
      this.hierarchy := hierarchy;
      this.prefabGuids := prefabGuids;
      this.prefabContents := prefabContents;
      this.sceneGuids := sceneGuids;
      dirty := {};
      savedPrefabs := [];
      loadedPrefabs := [];
    }

    /** `SceneManager.GetSceneByPath`: the first hierarchy slot with that path, else no scene. */
    function GetSceneByPath(path: Path): (s: Scene)
      reads this
      ensures s.valid ==> s.path == path
      ensures FirstSlot(hierarchy, path).None? ==> s == NoScene
      ensures FirstSlot(hierarchy, path).Some? ==> s == hierarchy[FirstSlot(hierarchy, path).value]
    {
      match FirstSlot(hierarchy, path)
      case None => NoScene
      case Some(k) => hierarchy[k]
    }

    /** The scene at `path` is already open and loaded. */
    predicate IsLoadedPath(path: Path)
      reads this
    {
      GetSceneByPath(path).valid && GetSceneByPath(path).isLoaded
    }

    /**
     * The open-if-needed half of `ExecuteInScene`: an already loaded scene is used as it is,
     * any other scene is opened additively, and `openedHere` says which happened.
     */
    method Acquire(path: Path) returns (scene: Scene, openedHere: bool)
      requires Valid()
      requires IsLoadedPath(path) || path in sceneContents
      modifies this`hierarchy
      ensures Valid()
      ensures scene == Scene(path, true, true)
      ensures openedHere == !old(IsLoadedPath(path))
      ensures hierarchy == if openedHere then old(hierarchy) + [scene] else old(hierarchy)
      ensures CanListDoors(sceneContents, scene)
    {
      var target := GetSceneByPath(path);
      var isAlreadyLoaded := target.valid && target.isLoaded;
      if isAlreadyLoaded {
        scene, openedHere := target, false;
        assert target.path in sceneContents by {
          var k := FirstSlot(hierarchy, path).value;
          assert hierarchy[k].valid;
        }
      } else {
        scene, openedHere := Scene(path, true, true), true;
        hierarchy := hierarchy + [scene];
      }
    }

    /** The always-close half: a scene this call opened is closed again. */
    method Release(scene: Scene, openedHere: bool)
      requires Valid()
      requires openedHere ==> |hierarchy| > 0 && hierarchy[|hierarchy| - 1] == scene
      modifies this`hierarchy
      ensures Valid()
      ensures hierarchy == if openedHere then old(hierarchy)[..|old(hierarchy)| - 1] else old(hierarchy)
    {
      if openedHere {
        hierarchy := hierarchy[..|hierarchy| - 1];
      }
    }

    /**
     * `DoorEditorUtils.ExecuteInScene`: nothing for a blank path; otherwise the action runs
     * exactly once on the loaded scene, which is closed afterwards only if it was opened here,
     * so the hierarchy ends as it began. `None` stands for "the action was not run".
     */
    method ExecuteInScene<T>(path: Path, action: Scene --> T) returns (result: Option<T>)
      requires Valid()
      requires !IsBlank(path) ==> IsLoadedPath(path) || path in sceneContents
      requires !IsBlank(path) ==> action.requires(Scene(path, true, true))
      modifies this`hierarchy
      ensures Valid() && hierarchy == old(hierarchy)
      ensures IsBlank(path) ==> result.None?
      ensures !IsBlank(path) ==> result == Some(action(Scene(path, true, true)))
    {
      if IsBlank(path) {
        return None;
      }
      var scene, openedHere := Acquire(path);
      var value := action(scene);
      Release(scene, openedHere);
      result := Some(value);
    }

    /** `EditorSceneManager.MarkSceneDirty`. */
    method MarkSceneDirty(scene: Scene)
      modifies this`dirty
      ensures dirty == old(dirty) + {scene.path}
    {
      dirty := dirty + {scene.path};
    }
  }
}
