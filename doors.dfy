/**
 * `Door` and `DoorLink`. A door is held as a value inside the scene or prefab that contains
 * it; `instanceId` stands for the identity of the Unity component, which is what the source
 * compares when it asks whether two doors are the same object.
 */
module Doors {
  import opened Wrappers
  import opened Strings
  import opened SceneReferences
  import DoorIdUtils

  datatype Vec3 = Vec3(x: real, y: real, z: real)

  /** The destination: a scene by GUID and a door id inside it. */
  datatype DoorLink = DoorLink(targetScene: SceneReference, targetDoorId: string)

  /** `entryPoint` is the world position of the entry transform, `None` when it is not set;
      `position` is the door's own transform position and `name` its game object's name. */
  datatype Door = Door(
    instanceId: nat,
    doorId: string,
    link: DoorLink,
    entryPoint: Option<Vec3>,
    position: Vec3,
    name: string)

  /** Length of the random part of an automatically assigned id. */
  const DefaultGeneratedLength: int := 5

  const AutoIdPrefix: string := "Door_"

  /** Where a traveller arrives: the entry point when set, otherwise the door itself. */
  function GetEntryPosition(d: Door): (p: Vec3)
    ensures d.entryPoint.Some? ==> p == d.entryPoint.value
    ensures d.entryPoint.None? ==> p == d.position
  {
    match d.entryPoint
    case Some(e) => e
    case None => d.position
  }

  /** Sets the id to exactly `newId`, without validation; nothing else changes. */
  function EditorSetDoorId(d: Door, newId: string): (r: Door)
    ensures r.doorId == newId
    ensures r.instanceId == d.instanceId && r.link == d.link && r.entryPoint == d.entryPoint
    ensures r.position == d.position && r.name == d.name
  {
    d.(doorId := newId)
  }

  /**
   * The id-assignment rule run when the door is edited. Nothing happens in play mode; a door on
   * a prefab asset is forced to the empty id; any other door whose id is blank or equal to the
   * id of the prefab door it comes from gets `"Door_"` followed by a fresh 5-character id.
   * `markedDirty` is the `SetDirty` call.
   */
  method OnValidate(d: Door, isPlaying: bool, isPartOfPrefabAsset: bool, source: Option<Door>)
    returns (r: Door, markedDirty: bool)
    ensures isPlaying ==> r == d && !markedDirty
    ensures !isPlaying && isPartOfPrefabAsset ==>
      r == d.(doorId := "") && markedDirty == (d.doorId != "")
    ensures !isPlaying && !isPartOfPrefabAsset && !NeedsNewId(d, source) ==> r == d && !markedDirty
    ensures !isPlaying && !isPartOfPrefabAsset && NeedsNewId(d, source) ==>
      markedDirty && r == d.(doorId := r.doorId) && IsAutoId(r.doorId)
  {
    r, markedDirty := d, false;
    if isPlaying {
      return;
    }
    if isPartOfPrefabAsset {
      if d.doorId != "" {
        r, markedDirty := d.(doorId := ""), true;
      }
      return;
    }
    var isInheritedFromPrefab := source.Some? && d.doorId == source.value.doorId;
    if IsBlank(d.doorId) || isInheritedFromPrefab {
      var suffix := DoorIdUtils.GenerateId(DefaultGeneratedLength);
      var id := AutoIdPrefix + suffix;
      AutoIdFromSuffix(suffix);
      r, markedDirty := d.(doorId := id), true;
    }
  }

  /** The id is blank, or still the one inherited from the source prefab. */
  predicate NeedsNewId(d: Door, source: Option<Door>) {
    IsBlank(d.doorId) || (source.Some? && d.doorId == source.value.doorId)
  }

  /** The shape of an automatically assigned id: `Door_` and five generated characters. */
  predicate IsAutoId(id: string) {
    |id| == 10 && StartsWith(id, AutoIdPrefix) && DoorIdUtils.IsValidId(id)
  }

  lemma AutoIdFromSuffix(suffix: string)
    requires |suffix| == DefaultGeneratedLength && DoorIdUtils.IsValidId(suffix)
    ensures IsAutoId(AutoIdPrefix + suffix)
  {
    assert DoorIdUtils.IsValidId(AutoIdPrefix) by {
      assert forall j :: 0 <= j < |AutoIdPrefix| ==> DoorIdUtils.IsIdChar(AutoIdPrefix[j]);
    }
    DoorIdUtils.ValidConcat(AutoIdPrefix, suffix);
    assert (AutoIdPrefix + suffix)[..|AutoIdPrefix|] == AutoIdPrefix;
  }
}
