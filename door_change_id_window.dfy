/**
 * `DoorChangeIdWindow`: the editor window that renames a door. `Apply` trims the proposed id
 * and runs every guard before touching anything; only then are the links rewritten, first in
 * the open scenes and then in the prefabs, and last the door's own id is set and its scene
 * marked dirty.
 */
module DoorChangeIdWindows {
  import opened Wrappers
  import opened Strings
  import opened Assets
  import opened Doors
  import opened DoorUtils
  import opened EditorWorld
  import opened DoorValidator
  import opened DoorProjectUpdater
  import DoorIdUtils

  /** The door the window edits: a door of a hierarchy scene (by slot, root and position under
      the root), or a door on a prefab asset, which belongs to no valid scene. */
  datatype DoorHandle = InScene(slot: nat, root: nat, index: nat) | OnPrefabAsset(door: Door)

  /** The handle names a door of a loaded scene, or a prefab asset's door. */
  predicate HandleLive(hierarchy: seq<Scene>, contents: SceneContents, h: DoorHandle) {
    h.InScene? ==>
      h.slot < |hierarchy| && hierarchy[h.slot].valid && hierarchy[h.slot].isLoaded &&
      hierarchy[h.slot].path in contents &&
      h.root < |contents[hierarchy[h.slot].path]| &&
      h.index < |contents[hierarchy[h.slot].path][h.root]|
  }

  function DoorAt(hierarchy: seq<Scene>, contents: SceneContents, h: DoorHandle): Door
    requires HandleLive(hierarchy, contents, h)
  {
    match h
    case InScene(slot, root, index) => contents[hierarchy[slot].path][root][index]
    case OnPrefabAsset(d) => d
  }

  /** `door.gameObject.scene`. */
  function SceneOf(hierarchy: seq<Scene>, h: DoorHandle): Scene
    requires h.InScene? ==> h.slot < |hierarchy|
  {
    if h.InScene? then hierarchy[h.slot] else NoScene
  }

  /** The contents with the id of one door replaced. */
  function SetDoorIdAt(contents: SceneContents, path: Path, root: nat, index: nat, newId: string): SceneContents
    requires path in contents && root < |contents[path]| && index < |contents[path][root]|
  {
    var roots := contents[path];
    contents[path := roots[root := roots[root][index := EditorSetDoorId(roots[root][index], newId)]]]
  }

  /** The guards of `Apply`, in the order they are tried, and what lets the rename go ahead. */
  datatype Check =
    | IdInvalid
    | IdUnchanged
    | SceneInvalid
    | IdTaken
    | GuidMissing
    | Proceed(oldId: string, guid: Guid)

  /** How `Apply` ended: stopped by a guard (a dialog, or closing for an unchanged id), or the rename. */
  datatype ApplyOutcome =
    | Stopped(check: Check)
    | Renamed(oldId: string, newId: string, changedScenes: int, changedPrefabs: int)

  /** No door of the handle's scene other than the handled one carries `id`. */
  predicate IdFreeInScene(hierarchy: seq<Scene>, contents: SceneContents, h: DoorHandle, id: string)
    requires HandleLive(hierarchy, contents, h) && h.InScene?
  {
    var doors := Flatten(contents[hierarchy[h.slot].path]);
    forall k :: 0 <= k < |doors| ==>
      doors[k].instanceId == DoorAt(hierarchy, contents, h).instanceId || doors[k].doorId != id
  }

  /**
   * Which guard of `Apply` stops a rename of the handled door to the (already trimmed) `id`.
   * The rename proceeds exactly when the id is valid and new, the door lies in a valid scene,
   * no other door of that scene carries the id and the scene's GUID is known.
   */
  function RenameCheck(hierarchy: seq<Scene>, contents: SceneContents, db: AssetDb, h: DoorHandle, id: string): (c: Check)
    requires HandleLive(hierarchy, contents, h)
    ensures c == IdInvalid <==> !DoorIdUtils.IsValidId(id)
    ensures c == IdUnchanged <==> DoorIdUtils.IsValidId(id) && id == DoorAt(hierarchy, contents, h).doorId
    ensures c.Proceed? <==>
      (DoorIdUtils.IsValidId(id) && id != DoorAt(hierarchy, contents, h).doorId && h.InScene? &&
       IdFreeInScene(hierarchy, contents, h, id) && !IsBlank(GetSceneGuid(db, hierarchy[h.slot].path)))
    ensures c.Proceed? ==>
      c.oldId == DoorAt(hierarchy, contents, h).doorId && c.guid == GetSceneGuid(db, hierarchy[h.slot].path)
    ensures c == SceneInvalid ==> h.OnPrefabAsset?
  {
    var oldId := DoorAt(hierarchy, contents, h).doorId;
    if !DoorIdUtils.IsValidId(id) then IdInvalid
    else if id == oldId then IdUnchanged
    else if !SceneOf(hierarchy, h).valid then SceneInvalid
    else if !IdFreeInScene(hierarchy, contents, h, id) then IdTaken
    else if IsBlank(GetSceneGuid(db, hierarchy[h.slot].path)) then GuidMissing
    else Proceed(oldId, GetSceneGuid(db, hierarchy[h.slot].path))
  }

  /** The guards as `Apply` runs them, the uniqueness test by a pass over the scene's doors. */
  method CheckRename(w: World, h: DoorHandle, id: string) returns (c: Check)
    requires HandleLive(w.hierarchy, w.sceneContents, h)
    ensures c == RenameCheck(w.hierarchy, w.sceneContents, w.assets, h, id)
  {
    if !DoorIdUtils.IsValidId(id) {
      return IdInvalid;
    }
    var d := DoorAt(w.hierarchy, w.sceneContents, h);
    var oldId := d.doorId;
    if id == oldId {
      return IdUnchanged;
    }
    var scene := SceneOf(w.hierarchy, h);
    if !scene.valid {
      return SceneInvalid;
    }
    var unique := IsDoorIdUniqueInScene(w.sceneContents, scene, d, id);
    if !unique {
      return IdTaken;
    }
    assert SceneDoors(w.sceneContents, scene) == Flatten(w.sceneContents[w.hierarchy[h.slot].path]);
    assert IdFreeInScene(w.hierarchy, w.sceneContents, h, id);
    var sceneGuid := GetSceneGuid(w.assets, scene.path);
    if IsBlank(sceneGuid) {
      return GuidMissing;
    }
    c := Proceed(oldId, sceneGuid);
  }

  /** Length of the id the "Random" button proposes. */
  const RandomIdLength: int := 5

  class DoorChangeIdWindow {
    var door: Option<DoorHandle>
    var newId: string
    var closed: bool

    /** `Show`: the proposal starts as the door's current id (empty without a door). */
    constructor Show(w: World, door: Option<DoorHandle>)
      requires door.Some? ==> HandleLive(w.hierarchy, w.sceneContents, door.value)
      ensures this.door == door && !closed
      ensures newId == if door.Some? then DoorAt(w.hierarchy, w.sceneContents, door.value).doorId else ""
    {
      this.door := door;
      newId := if door.Some? then DoorAt(w.hierarchy, w.sceneContents, door.value).doorId else "";
      closed := false;
    }

    /** The "Random" button proposes a fresh 5-character id. */
    method Random()
      modifies this`newId
      ensures |newId| == RandomIdLength && DoorIdUtils.IsValidId(newId)
    {
      newId := DoorIdUtils.GenerateId(RandomIdLength);
    }

    /**
     * `Apply`. The id is trimmed first; a guard that fails shows its dialog (or, for an
     * unchanged id, closes the window) and changes nothing else. Otherwise the open scenes,
     * then the prefabs are rewritten, the door gets the new id, its scene is marked dirty and
     * the window closes.
     */
    method Apply(w: World) returns (outcome: ApplyOutcome)
      requires door.Some? && HandleLive(w.hierarchy, w.sceneContents, door.value)
      requires w.Valid() && PrefabsResolve(w.prefabGuids, w.assets, w.prefabContents)
      modifies this`newId, this`closed, w`sceneContents, w`dirty, w`prefabContents, w`savedPrefabs, w`loadedPrefabs
      ensures w.Valid() && w.loadedPrefabs == old(w.loadedPrefabs)
      ensures newId == Trim(old(newId))
      ensures ApplyEffect(w, old(w.sceneContents), old(w.dirty), old(w.prefabContents), old(w.savedPrefabs),
                          door.value, newId, outcome)
      ensures closed <==> old(closed) || outcome == Stopped(IdUnchanged) || outcome.Renamed?
    {
      newId := Trim(newId);
      outcome := ApplyTrimmed(w, door.value, newId);
      if outcome == Stopped(IdUnchanged) || outcome.Renamed? {
        closed := true;
      }
    }
  }

  /**
   * What `Apply` leaves behind for the trimmed id `id`: a guard stops it exactly when the
   * rename cannot proceed, and then nothing changed; otherwise the rename happened, from the
   * door's old id to `id`.
   */
  ghost predicate ApplyEffect(w: World, contents0: SceneContents, dirty0: set<Path>,
                              prefabs0: map<Path, seq<Door>>, saved0: seq<Path>, h: DoorHandle,
                              id: string, outcome: ApplyOutcome)
    reads w
  {
    HandleLive(w.hierarchy, contents0, h) &&
    var c := RenameCheck(w.hierarchy, contents0, w.assets, h, id);
    (outcome.Stopped? <==> !c.Proceed?) &&
    (outcome.Stopped? ==>
       outcome.check == c &&
       w.sceneContents == contents0 && w.dirty == dirty0 && w.prefabContents == prefabs0 && w.savedPrefabs == saved0) &&
    (outcome.Renamed? ==>
       outcome.oldId == c.oldId && outcome.newId == id &&
       RenamedState(w, contents0, dirty0, prefabs0, saved0, h, c.guid, c.oldId, id,
                    outcome.changedScenes, outcome.changedPrefabs))
  }

  /** The guards, then the rename when they all pass, for an id already trimmed. */
  method ApplyTrimmed(w: World, h: DoorHandle, id: string) returns (outcome: ApplyOutcome)
    requires HandleLive(w.hierarchy, w.sceneContents, h)
    requires w.Valid() && PrefabsResolve(w.prefabGuids, w.assets, w.prefabContents)
    modifies w`sceneContents, w`dirty, w`prefabContents, w`savedPrefabs, w`loadedPrefabs
    ensures w.Valid() && w.loadedPrefabs == old(w.loadedPrefabs)
    ensures ApplyEffect(w, old(w.sceneContents), old(w.dirty), old(w.prefabContents), old(w.savedPrefabs),
                        h, id, outcome)
  {
    var c := CheckRename(w, h, id);
    if !c.Proceed? {
      return Stopped(c);
    }
    var changedScenes, changedPrefabs := RenameDoor(w, h, c.guid, c.oldId, id);
    outcome := Renamed(c.oldId, id, changedScenes, changedPrefabs);
  }

  /**
   * What a rename leaves behind: the links in the open scenes and in the prefabs rewritten by
   * the two passes, then the door's own id set, and its scene dirty on top of the scenes the
   * open-scene pass marked.
   */
  ghost predicate RenamedState(w: World, contents0: SceneContents, dirty0: set<Path>,
                               prefabs0: map<Path, seq<Door>>, saved0: seq<Path>, h: DoorHandle,
                               guid: Guid, oldId: string, newId: string, changedScenes: int, changedPrefabs: int)
    reads w
  {
    h.InScene? && HandleLive(w.hierarchy, contents0, h) &&
    HierarchyValid(w.hierarchy, contents0) && PrefabsResolve(w.prefabGuids, w.assets, prefabs0) &&
    var path := w.hierarchy[h.slot].path;
    var scenes := OpenScenesPass(w.hierarchy, ScenePass(contents0, dirty0, 0), guid, oldId, newId);
    var prefabs := PrefabsPass(w.prefabGuids, w.assets, PrefabPass(prefabs0, saved0, 0), guid, oldId, newId);
    path in scenes.contents &&
    h.root < |scenes.contents[path]| && h.index < |scenes.contents[path][h.root]| &&
    w.sceneContents == SetDoorIdAt(scenes.contents, path, h.root, h.index, newId) &&
    w.dirty == scenes.dirty + {path} && changedScenes == scenes.changedLinks &&
    w.prefabContents == prefabs.prefabs && w.savedPrefabs == prefabs.saved &&
    changedPrefabs == prefabs.changedLinks
  }

  /** The effect half of `Apply`, once every guard has passed. */
  method RenameDoor(w: World, h: DoorHandle, guid: Guid, oldId: string, newId: string)
    returns (changedScenes: int, changedPrefabs: int)
    requires w.Valid() && PrefabsResolve(w.prefabGuids, w.assets, w.prefabContents)
    requires h.InScene? && HandleLive(w.hierarchy, w.sceneContents, h)
    modifies w`sceneContents, w`dirty, w`prefabContents, w`savedPrefabs, w`loadedPrefabs
    ensures w.Valid() && w.loadedPrefabs == old(w.loadedPrefabs)
    ensures RenamedState(w, old(w.sceneContents), old(w.dirty), old(w.prefabContents), old(w.savedPrefabs),
                         h, guid, oldId, newId, changedScenes, changedPrefabs)
  {
    var scene := w.hierarchy[h.slot];
    PassKeepsShape(w.hierarchy, w.sceneContents, w.dirty, guid, oldId, newId, scene.path);
    changedScenes := ReplaceReferencesInOpenScenes(w, guid, oldId, newId, 0);
    changedPrefabs := ReplaceReferencesInAllPrefabs(w, guid, oldId, newId, 0);
    w.sceneContents := SetDoorIdAt(w.sceneContents, scene.path, h.root, h.index, newId);
    w.MarkSceneDirty(scene);
  }

  /** The open-scene pass keeps the number of roots and of doors under each root. */
  lemma PassKeepsShape(slots: seq<Scene>, contents: SceneContents, dirty: set<Path>, guid: Guid,
                       oldId: string, newId: string, path: Path)
    requires SlotsResolve(slots, contents) && path in contents
    ensures var r := OpenScenesPass(slots, ScenePass(contents, dirty, 0), guid, oldId, newId);
      path in r.contents && |r.contents[path]| == |contents[path]| &&
      forall i :: 0 <= i < |contents[path]| ==> |r.contents[path][i]| == |contents[path][i]|
  {
    OpenScenesPassEffect(slots, ScenePass(contents, dirty, 0), guid, oldId, newId, path);
  }

  /** Every door of the flattened list after one door is replaced is the new door or an old one. */
  lemma {:induction false} FlattenUpdate(roots: seq<seq<Door>>, i: nat, j: nat, x: Door)
    requires i < |roots| && j < |roots[i]|
    ensures forall d :: d in Flatten(roots[i := roots[i][j := x]]) ==> d == x || d in Flatten(roots)
    decreases |roots|
  {
    var updated := roots[i := roots[i][j := x]];
    var n := |roots| - 1;
    assert updated[..n] == if i < n then roots[..n][i := roots[i][j := x]] else roots[..n];
    if i < n {
      FlattenUpdate(roots[..n], i, j, x);
      assert updated[n] == roots[n];
    } else {
      forall d | d in updated[n]
        ensures d == x || d in roots[n]
      {
        var k :| 0 <= k < |updated[n]| && updated[n][k] == d;
        if k != j {
          assert roots[n][k] == d;
        }
      }
    }
  }

  /** No door of the roots other than the ones with instance `inst` carries `id`. */
  predicate OnlyInstanceCarries(roots: seq<seq<Door>>, inst: nat, id: string) {
    forall k :: 0 <= k < |Flatten(roots)| ==> Flatten(roots)[k].instanceId == inst || Flatten(roots)[k].doorId != id
  }

  /** Relinking keeps every door's instance and id, so it keeps who carries an id. */
  lemma RelinkKeepsCarriers(roots: seq<seq<Door>>, inst: nat, guid: Guid, oldId: string, newId: string)
    requires OnlyInstanceCarries(roots, inst, newId)
    ensures OnlyInstanceCarries(RelinkRoots(roots, guid, oldId, newId), inst, newId)
  {
    FlattenRelinkRoots(roots, guid, oldId, newId);
    var doors0 := Flatten(roots);
    var doors := RelinkAll(doors0, guid, oldId, newId);
    forall k | 0 <= k < |doors|
      ensures doors[k].instanceId == inst || doors[k].doorId != newId
    {
      RelinkFields(doors0[k], guid, oldId, newId);
    }
  }

  /** Giving one door of instance `inst` the id keeps the id to that instance. */
  lemma RenameKeepsCarriers(roots: seq<seq<Door>>, root: nat, index: nat, inst: nat, newId: string)
    requires root < |roots| && index < |roots[root]| && roots[root][index].instanceId == inst
    requires OnlyInstanceCarries(roots, inst, newId)
    ensures OnlyInstanceCarries(roots[root := roots[root][index := EditorSetDoorId(roots[root][index], newId)]], inst, newId)
  {
    var x := EditorSetDoorId(roots[root][index], newId);
    FlattenUpdate(roots, root, index, x);
    var doors := Flatten(roots[root := roots[root][index := x]]);
    forall k | 0 <= k < |doors|
      ensures doors[k].instanceId == inst || doors[k].doorId != newId
    {
      assert doors[k] in doors;
      if doors[k] != x {
        assert doors[k] in Flatten(roots);
        var m :| 0 <= m < |Flatten(roots)| && Flatten(roots)[m] == doors[k];
      }
    }
  }

  /**
   * A rename keeps the door id unique in the door's scene: afterwards the handled door carries
   * the new id, and every other door of the scene still carries another id, since relinking
   * never changes a door's own id.
   */
  lemma RenameKeepsIdFree(hierarchy: seq<Scene>, contents0: SceneContents, dirty0: set<Path>,
                          h: DoorHandle, guid: Guid, oldId: string, newId: string)
    requires h.InScene? && HandleLive(hierarchy, contents0, h) && HierarchyValid(hierarchy, contents0)
    requires IdFreeInScene(hierarchy, contents0, h, newId)
    ensures var path := hierarchy[h.slot].path;
      var scenes := OpenScenesPass(hierarchy, ScenePass(contents0, dirty0, 0), guid, oldId, newId);
      path in scenes.contents &&
      h.root < |scenes.contents[path]| && h.index < |scenes.contents[path][h.root]| &&
      var final := SetDoorIdAt(scenes.contents, path, h.root, h.index, newId);
      HandleLive(hierarchy, final, h) && DoorAt(hierarchy, final, h).doorId == newId &&
      DoorAt(hierarchy, final, h).instanceId == DoorAt(hierarchy, contents0, h).instanceId &&
      IdFreeInScene(hierarchy, final, h, newId)
  {
    var path := hierarchy[h.slot].path;
    var scenes := OpenScenesPass(hierarchy, ScenePass(contents0, dirty0, 0), guid, oldId, newId);
    var roots0 := contents0[path];
    OpenScenesPassEffect(hierarchy, ScenePass(contents0, dirty0, 0), guid, oldId, newId, path);
    assert LoadedIn(hierarchy, path) by {
      assert hierarchy[h.slot].valid && hierarchy[h.slot].isLoaded;
    }
    assert scenes.contents[path] == RelinkRoots(roots0, guid, oldId, newId);
    var inst := roots0[h.root][h.index].instanceId;
    assert OnlyInstanceCarries(roots0, inst, newId);
    RelinkThenRenameKeepsIdFree(roots0, h.root, h.index, guid, oldId, newId);
  }

  /** The same on the roots of the door's scene: relinking, then giving the door at `root`,
      `index` the new id, leaves that id to the door's instance alone. */
  lemma RelinkThenRenameKeepsIdFree(roots0: seq<seq<Door>>, root: nat, index: nat, guid: Guid,
                                    oldId: string, newId: string)
    requires root < |roots0| && index < |roots0[root]|
    requires OnlyInstanceCarries(roots0, roots0[root][index].instanceId, newId)
    ensures var rel := RelinkRoots(roots0, guid, oldId, newId);
      root < |rel| && index < |rel[root]| &&
      rel[root][index].instanceId == roots0[root][index].instanceId &&
      var final := rel[root := rel[root][index := EditorSetDoorId(rel[root][index], newId)]];
      final[root][index].doorId == newId &&
      OnlyInstanceCarries(final, roots0[root][index].instanceId, newId)
  {
    var inst := roots0[root][index].instanceId;
    var rel := RelinkRoots(roots0, guid, oldId, newId);
    RelinkFields(roots0[root][index], guid, oldId, newId);
    RelinkKeepsCarriers(roots0, inst, guid, oldId, newId);
    RenameKeepsCarriers(rel, root, index, inst, newId);
  }
}
