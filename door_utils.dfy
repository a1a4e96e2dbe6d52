/**
 * Scenes and the runtime door lookups. A scene's contents are its root game objects in
 * hierarchy order, each given as the doors found under it by `GetComponentsInChildren<Door>(true)`
 * (inactive ones included); `Scene` is the handle `SceneManager` hands out.
 */
module DoorUtils {
  import opened Wrappers
  import opened Assets
  import opened Doors

  /** For every scene asset path, the doors under each of its root objects. */
  type SceneContents = map<Path, seq<seq<Door>>>

  /** A scene handle: its asset path, `IsValid()` and `isLoaded`. */
  datatype Scene = Scene(path: Path, valid: bool, isLoaded: bool)

  /** The handle for "no such scene". */
  const NoScene: Scene := Scene("", false, false)

  /** The doors of all roots, in root order. */
  function Flatten(roots: seq<seq<Door>>): seq<Door>
  {
    if |roots| == 0 then [] else Flatten(roots[..|roots| - 1]) + roots[|roots| - 1]
  }

  /** `GetRootGameObjects` throws on a valid scene that is not loaded. */
  predicate CanListDoors(contents: SceneContents, scene: Scene) {
    !scene.valid || (scene.isLoaded && scene.path in contents)
  }

  /** What `GetDoorsInScene` returns: nothing for an invalid scene, else every door under
      every root of the scene, inactive ones included. */
  function SceneDoors(contents: SceneContents, scene: Scene): (doors: seq<Door>)
    requires CanListDoors(contents, scene)
    ensures !scene.valid ==> doors == []
    ensures scene.valid ==> forall i, j :: 0 <= i < |contents[scene.path]| && 0 <= j < |contents[scene.path][i]| ==>
      contents[scene.path][i][j] in doors
  {
    if !scene.valid then []
    else
      FlattenHas(contents[scene.path]);
      Flatten(contents[scene.path])
  }

  /** Every door under every root is in the flattened list. */
  lemma {:induction false} FlattenHas(roots: seq<seq<Door>>)
    ensures forall i, j :: 0 <= i < |roots| && 0 <= j < |roots[i]| ==> roots[i][j] in Flatten(roots)
  {
    if |roots| > 0 {
      var pre := roots[..|roots| - 1];
      FlattenHas(pre);
      forall i, j | 0 <= i < |roots| && 0 <= j < |roots[i]|
        ensures roots[i][j] in Flatten(roots)
      {
        if i < |pre| {
          assert roots[i] == pre[i];
        }
      }
    }
  }

  /** Collects the doors root by root. */
  method GetDoorsInScene(contents: SceneContents, scene: Scene) returns (result: seq<Door>)
    requires CanListDoors(contents, scene)
    ensures !scene.valid ==> result == []
    ensures scene.valid ==> result == Flatten(contents[scene.path])
  {
    result := [];
    if !scene.valid {
      return;
    }
    var roots := contents[scene.path];
    var i := 0;
    while i < |roots|
      invariant 0 <= i <= |roots|
      invariant result == Flatten(roots[..i])
    {
      assert roots[..i + 1][..i] == roots[..i];
      result := result + roots[i];
      i := i + 1;
    }
    assert roots[..|roots|] == roots;
  }

  /** Appending a root appends its doors to the flattened list. */
  lemma {:induction false} FlattenAppend(roots: seq<seq<Door>>, more: seq<Door>)
    ensures Flatten(roots + [more]) == Flatten(roots) + more
  {
    assert (roots + [more])[..|roots|] == roots;
  }

  /** Index of the first door carrying `id`, if any. */
  function FirstWithId(doors: seq<Door>, id: string): (k: Option<nat>)
    ensures k.Some? ==> k.value < |doors| && doors[k.value].doorId == id
    ensures k.Some? ==> forall j :: 0 <= j < k.value ==> doors[j].doorId != id
    ensures k.None? ==> forall j :: 0 <= j < |doors| ==> doors[j].doorId != id
  {
    if |doors| == 0 then None
    else if doors[0].doorId == id then Some(0)
    else match FirstWithId(doors[1..], id)
      case None => None
      case Some(k) => Some(k + 1)
  }

  /**
   * `FindDoorByIdInScene`: null for a null or empty id, otherwise the first door in list order
   * whose id is ordinally equal to `id`, null when there is none.
   */
  function FindDoorByIdInScene(contents: SceneContents, scene: Scene, id: string): (r: Option<Door>)
    requires id == "" || CanListDoors(contents, scene)
    ensures id == "" ==> r.None?
    ensures r.Some? ==> r.value.doorId == id
    ensures id != "" ==> match FirstWithId(SceneDoors(contents, scene), id)
      case None => r.None?
      case Some(k) => r == Some(SceneDoors(contents, scene)[k])
  {
    if id == "" then None
    else
      var doors := SceneDoors(contents, scene);
      match FirstWithId(doors, id)
      case None => None
      case Some(k) => Some(doors[k])
  }

  /** For a non-empty id the lookup fails exactly when no door of the scene carries the id. */
  lemma FindDoorByIdMisses(contents: SceneContents, scene: Scene, id: string)
    requires id != "" && CanListDoors(contents, scene)
    ensures FindDoorByIdInScene(contents, scene, id).None? <==>
      forall j :: 0 <= j < |SceneDoors(contents, scene)| ==> SceneDoors(contents, scene)[j].doorId != id
  {
    var doors := SceneDoors(contents, scene);
    if FirstWithId(doors, id).Some? {
      var k := FirstWithId(doors, id).value;
      assert doors[k].doorId == id;
    }
  }
}
